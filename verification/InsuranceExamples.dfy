/** Runs from a new contract that reach the cases in which a promise fails: payouts past a
    policy's coverage and past a reinsurance limit, a submission accepted twice, and a debt that
    was never earned. */
module InsuranceExamples {
  import opened Common
  import opened Liquidity
  import opened Rewards
  import opened Insurance
  import opened InsuranceRuns
  import opened InsurancePolicies
  import opened InsuranceRecoveries

  /** Account 1 administers, provides, insures property 7 and assesses; account 5 is the
      oracle. */
  const SETUP: Config := Config({(1, Admin)}, map[7 := Assessment(50, 1_000)], false, 0, 0, Some(5))

  const COVERAGE: nat := 1_000_000_000_000
  const DEPOSIT: nat := 2_000_000_000_000
  const PREMIUM: nat := 2_250_000
  const DEDUCTIBLE: nat := 7_500_000_000

  /** The reward index after the premium. */
  const INDEX: nat := 1_125_000_000_000

  function By(caller: Address, value: nat): Env {
    Env(caller, value, 10)
  }

  lemma RunThen(cfg: Config, calls: seq<Call>, c: Call)
    ensures Run(cfg, calls + [c]).s == After(Run(cfg, calls).s, c.env, c.message)
  {
    hide After, Run;
    assert (calls + [c])[..|calls + [c]| - 1] == calls;
    RunStep(cfg, calls + [c]);
  }

  lemma NewRun(cfg: Config)
    ensures Run(cfg, []).s == Genesis(cfg)
  {
  }

  // ---------------------------------------------------------------------------------------
  // A funded pool with one policy
  // ---------------------------------------------------------------------------------------

  const NEW_POOL: Pool := Pool(0, 0, 0, 0, 0, BPS, 1, true, 0, 0, 0, 0, 0)

  const EMPTY_POOL: Pool := Pool(DEPOSIT, DEPOSIT, 0, 0, 0, BPS, 1, true, DEPOSIT, 0, 0, 0, 0)

  const SOLD_POOL: Pool := Pool(DEPOSIT, DEPOSIT + PREMIUM, PREMIUM, 0, 1, BPS, 1, true, DEPOSIT, INDEX, 0, 0, 0)

  function Insured(event: Option<nat>): Policy {
    Policy(7, 1, COVERAGE, PREMIUM, DEDUCTIBLE, 510, Active, 1, 0, 0, event)
  }

  const CREATE: Call := Call(By(1, 0), MCreatePool(true, BPS, 1))

  const PROVIDE: Call := Call(By(1, DEPOSIT), MDeposit(1))

  function Apply(event: Option<nat>): Call {
    Call(By(1, PREMIUM), MCreatePolicy(7, Fire, COVERAGE, 1, 500, event))
  }

  const FUND: seq<Call> := [CREATE] + [PROVIDE]

  function Sell(event: Option<nat>): seq<Call> {
    FUND + [Apply(event)]
  }

  ghost predicate AwaitsPolicy(s: State) {
    && s.cfg == SETUP && s.book == NO_BOOK && s.liq.pools == map[1 := EMPTY_POOL]
    && s.liq.providers == map[(1, 1) := Provider(DEPOSIT, 0, 10, 0, 0, 0)]
  }

  lemma Funds()
    ensures AwaitsPolicy(Run(SETUP, FUND).s)
  {
    hide Run, After, AwaitsPolicy;
    assert [] + [CREATE] == [CREATE];
    NewRun(SETUP);
    RunThen(SETUP, [], CREATE);
    Creates();
    RunThen(SETUP, [CREATE], PROVIDE);
    Provides(Run(SETUP, [CREATE]).s);
  }

  lemma Creates()
    ensures After(Genesis(SETUP), CREATE.env, CREATE.message)
            == Genesis(SETUP).(liq := NO_LIQ.(pools := map[1 := NEW_POOL], poolCount := 1))
  {
  }

  lemma Stakes()
    ensures Staked(NEW_POOL, NO_PROVIDER.(depositedAt := 10), DEPOSIT) == (EMPTY_POOL, Provider(DEPOSIT, 0, 10, 0, 0, 0))
  {
  }

  lemma Provides(s: State)
    requires s == Genesis(SETUP).(liq := NO_LIQ.(pools := map[1 := NEW_POOL], poolCount := 1))
    ensures AwaitsPolicy(After(s, PROVIDE.env, PROVIDE.message))
  {
    hide Staked;
    Stakes();
  }

  lemma Applies(s: State, event: Option<nat>)
    requires AwaitsPolicy(s) && event != Some(0)
    ensures ApplicationFault(s, By(1, PREMIUM), 7, Fire, COVERAGE, 1, 500, event).None?
  {
    assert AnnualPremium(COVERAGE, 50, Fire) == PREMIUM;
  }

  lemma PremiumIndexed()
    ensures TakePremium(EMPTY_POOL.(activePolicies := 1), PREMIUM) == SOLD_POOL
  {
    assert PREMIUM * PRECISION / DEPOSIT == INDEX;
  }

  ghost predicate FirstPolicy(b: Book, event: Option<nat>) {
    && b.policies == map[1 := Insured(event)] && b.policyCount == 1
    && b.claims == map[] && b.claimCount == 0 && b.nonces == map[] && b.usedEvidence == {}
    && b.agreements == map[] && b.agreementCount == 0
  }

  lemma PolicyIssued(event: Option<nat>)
    ensures FirstPolicy(Issue(NO_BOOK, Insured(event), 0), event)
  {
  }

  lemma Issues(s: State, event: Option<nat>)
    requires AwaitsPolicy(s) && ApplicationFault(s, By(1, PREMIUM), 7, Fire, COVERAGE, 1, 500, event).None?
    ensures var s' := After(s, Apply(event).env, Apply(event).message);
            && s'.cfg == SETUP && s'.liq.pools == map[1 := SOLD_POOL] && s'.liq.providers == s.liq.providers
            && s'.book == Issue(NO_BOOK, Insured(event), 0)
  {
    hide ApplicationFault, Issue, TakePremium, Accrued;
    assert Deductible(COVERAGE, 50) == DEDUCTIBLE;
    assert PremiumShare(SETUP, PREMIUM) == PREMIUM;
    PremiumIndexed();
  }

  ghost predicate HasPolicy(s: State, event: Option<nat>) {
    && s.cfg == SETUP && FirstPolicy(s.book, event) && s.liq.pools == map[1 := SOLD_POOL]
    && s.liq.providers == map[(1, 1) := Provider(DEPOSIT, 0, 10, 0, 0, 0)]
  }

  lemma Sells(event: Option<nat>)
    requires event != Some(0)
    ensures HasPolicy(Run(SETUP, Sell(event)).s, event)
  {
    hide Run, After, Issue, ApplicationFault, FirstPolicy;
    Funds();
    var s := Run(SETUP, FUND).s;
    Applies(s, event);
    Issues(s, event);
    PolicyIssued(event);
    RunThen(SETUP, FUND, Apply(event));
  }

  // ---------------------------------------------------------------------------------------
  // Two full claims
  // ---------------------------------------------------------------------------------------

  const LIMIT: nat := 100_000_000_000

  const REINSURE: Call := Call(By(1, 0), MReinsure(9, LIMIT, LIMIT, 1, 1, 500))

  function Proof(kind: string): Evidence {
    Evidence(kind, "https://evidence", 32)
  }

  function Claims(kind: string, nonce: nat): Call {
    Call(By(1, 0), MSubmit(1, COVERAGE, Proof(kind), nonce))
  }

  function Approves(c: nat): Call {
    Call(By(1, 0), MProcess(c, true))
  }

  const FILED: Claim := Claim(1, 1, COVERAGE, Pending, 10, None, 0, None)

  function FiledClaims(n: nat): map<nat, Claim> {
    if n == 0 then map[] else FiledClaims(n - 1)[n := FILED]
  }

  /** After `n` claims for the whole coverage. */
  ghost predicate Filed(s: State, n: nat) {
    && s.cfg == SETUP && s.liq.pools == map[1 := SOLD_POOL]
    && s.book.policies == map[1 := Insured(None).(claimsCount := n)]
    && s.book.agreements == map[1 := Agreement(LIMIT, LIMIT, 510, true, 0)] && s.book.agreementCount == 1
    && s.book.claimCount == n && s.book.claims == FiledClaims(n)
    && CountAt(s.book.nonces, 1) == n
  }

  lemma Reinsures(s: State)
    requires HasPolicy(s, None)
    ensures Filed(After(s, REINSURE.env, REINSURE.message), 0)
    ensures After(s, REINSURE.env, REINSURE.message).book.usedEvidence == {}
  {
  }

  lemma Files(s: State, n: nat, kind: string)
    requires Filed(s, n) && kind != "" && (1, kind) !in s.book.usedEvidence
    ensures var c := Claims(kind, n);
            && Filed(After(s, c.env, c.message), n + 1)
            && After(s, c.env, c.message).book.usedEvidence == s.book.usedEvidence + {(1, kind)}
  {
    hide SubmitFault, FileClaim;
    Admits(s, n, kind);
    FilesNext(s.book, n);
  }

  lemma Admits(s: State, n: nat, kind: string)
    requires Filed(s, n) && kind != "" && (1, kind) !in s.book.usedEvidence
    ensures SubmitFault(s, By(1, 0), 1, COVERAGE, Proof(kind), n).None?
  {
    hide SubmitFault;
    assert "https://" <= "https://evidence";
    AcceptedClaim(s, By(1, 0), 1, COVERAGE, Proof(kind), n);
  }

  lemma FilesNext(b: Book, n: nat)
    requires b.policies == map[1 := Insured(None).(claimsCount := n)] && b.claims == FiledClaims(n)
    ensures var b' := FileClaim(b, n + 1, FILED);
            && b'.policies == map[1 := Insured(None).(claimsCount := n + 1)]
            && b'.claims == FiledClaims(n + 1) && b'.claimCount == n + 1
            && b'.agreements == b.agreements && b'.agreementCount == b.agreementCount
            && b'.nonces == b.nonces && b'.usedEvidence == b.usedEvidence
  {
  }

  const TWO_CLAIMS: seq<Call> := Sell(None) + [REINSURE] + [Claims("photo", 0)] + [Claims("report", 1)]

  lemma FilesBoth()
    ensures Filed(Run(SETUP, TWO_CLAIMS).s, 2)
  {
    hide Run, After, HasPolicy, Filed;
    Sells(None);
    RunThen(SETUP, Sell(None), REINSURE);
    Reinsures(Run(SETUP, Sell(None)).s);
    RunThen(SETUP, Sell(None) + [REINSURE], Claims("photo", 0));
    Files(Run(SETUP, Sell(None) + [REINSURE]).s, 0, "photo");
    RunThen(SETUP, Sell(None) + [REINSURE] + [Claims("photo", 0)], Claims("report", 1));
    assert "photo"[0] != "report"[0];
    Files(Run(SETUP, Sell(None) + [REINSURE] + [Claims("photo", 0)]).s, 1, "report");
  }

  /** A review on its own that succeeds does what it does in a batch. */
  lemma LikeInBatch(s: State, e: Env, c: nat)
    requires ProcessClaim(s, e, c, true).Ok?
    ensures After(s, e, MProcess(c, true)) == After(s, e, MProcessInBatch(c, true)) == ProcessClaim(s, e, c, true).value.0
  {
    hide ProcessClaimInner, HasRole;
  }

  lemma Recovers(s: State, c: nat)
    requires Filed(s, 2) && 1 <= c <= 2
    ensures ReviewFault(s.book, c, true).None? && RecoveredBy(s, c, 10) == Booking(1, LIMIT)
  {
    assert FiledClaims(2) == map[1 := FILED, 2 := FILED];
    assert FirstRecovery(s.book.agreements, 1, 1, COVERAGE - DEDUCTIBLE, 10) == Booking(1, LIMIT);
  }

  /** Two claims for the whole coverage, filed before either is reviewed, are both paid: the
      policy ends beyond its coverage and the agreement beyond its limit. */
  lemma FullClaimsRun()
    ensures var b := Run(SETUP, TWO_CLAIMS + [Approves(1)] + [Approves(2)]).s.book;
            && 1 in b.policies && b.policies[1].coverage == COVERAGE
            && b.policies[1].totalClaimed == 2 * (COVERAGE - DEDUCTIBLE) > COVERAGE
            && 1 in b.agreements && b.agreements[1].recovered == 2 * LIMIT && !WithinLimit(b, 1)
  {
    hide Run, After, ProcessClaim, RecoveredBy;
    FilesBoth();
    var s, e := Run(SETUP, TWO_CLAIMS).s, By(1, 0);
    Recovers(s, 1);
    Recovers(s, 2);
    FullClaimsExceedCoverage(s, e, 1, 2);
    LimitIsPerPayout(s, e, 1, 2, 1);
    LikeInBatch(s, e, 1);
    LikeInBatch(ProcessClaim(s, e, 1, true).value.0, e, 2);
    RunThen(SETUP, TWO_CLAIMS, Approves(1));
    RunThen(SETUP, TWO_CLAIMS + [Approves(1)], Approves(2));
    CoverageStays(s, e);
  }

  lemma CoverageStays(s: State, e: Env)
    requires Filed(s, 2) && e == By(1, 0) && ReviewFault(s.book, 1, true).None? && ReviewFault(s.book, 2, true).None?
    ensures ProcessClaim(s, e, 1, true).Ok?
    ensures var second := ProcessClaim(ProcessClaim(s, e, 1, true).value.0, e, 2, true);
            second.Ok? && 1 in second.value.0.book.policies && second.value.0.book.policies[1].coverage == COVERAGE
  {
    hide ProcessClaim;
    CoverageCanBeExceeded(s, e, 1, 2);
  }

  // ---------------------------------------------------------------------------------------
  // A submission accepted twice
  // ---------------------------------------------------------------------------------------

  const SENSED: Option<nat> := Some(AUTO_APPROVED_EVENT)

  const AMOUNT: nat := 10_000_000_000

  const REPORT: Call := Call(By(1, 0), MSubmit(1, AMOUNT, Proof("sensor"), 0))

  lemma Senses(s: State)
    requires HasPolicy(s, SENSED)
    ensures SubmitClaim(s, By(1, 0), 1, AMOUNT, Proof("sensor"), 0).Ok?
  {
    hide SubmitClaim, SubmitFault;
    assert "https://" <= "https://evidence";
    AcceptedClaim(s, By(1, 0), 1, AMOUNT, Proof("sensor"), 0);
    AtOnceOutcome(s, By(1, 0), 1, AMOUNT, Proof("sensor"), 0);
  }

  /** On a policy whose claims are reviewed at once, the same message is accepted and paid twice,
      with the same nonce and the same evidence. */
  lemma ReplayRun()
    ensures var b := Run(SETUP, Sell(SENSED) + [REPORT] + [REPORT]).s.book;
            1 in b.policies && b.policies[1].totalClaimed == 2 * (AMOUNT - DEDUCTIBLE) > 0 && b.usedEvidence == {}
  {
    hide Run, SubmitClaim, SubmitFault;
    Sells(SENSED);
    var s := Run(SETUP, Sell(SENSED)).s;
    RunThen(SETUP, Sell(SENSED), REPORT);
    Senses(s);
    AtOnceLeaves(s, By(1, 0), 1, AMOUNT, Proof("sensor"), 0);
    ParametricReplay(s, By(1, 0), 1, AMOUNT, Proof("sensor"), 0, 10);
    RunThen(SETUP, Sell(SENSED) + [REPORT], REPORT);
    AtOnceLeaves(Run(SETUP, Sell(SENSED) + [REPORT]).s, By(1, 0), 1, AMOUNT, Proof("sensor"), 0);
  }

  // ---------------------------------------------------------------------------------------
  // A saturated index
  // ---------------------------------------------------------------------------------------

  const WINDFALL: nat := 1_000_000_000_000_000_000_000

  const LEAVE: Call := Call(By(1, 0), MWithdraw(1, DEPOSIT - 1))

  const RENEW: Call := Call(By(1, WINDFALL), MRenew(1, 500))

  const JOIN: Call := Call(By(2, 1), MDeposit(1))

  ghost predicate PoolAt(s: State, stake: nat, index: nat) {
    && s.cfg == SETUP && 1 in s.liq.pools && 1 in s.book.policies && s.book.policies[1] == Insured(None)
    && var q := s.liq.pools[1];
    && q.isActive && q.totalStake == stake && q.acc == index && q.availableCapital <= WINDFALL && (1, 2) !in s.liq.providers
  }

  lemma Leaves(s: State)
    requires HasPolicy(s, None)
    ensures PoolAt(After(s, LEAVE.env, LEAVE.message), 1, INDEX)
  {
    assert Earned(DEPOSIT, INDEX) == PREMIUM;
  }

  lemma Renews(s: State)
    requires PoolAt(s, 1, INDEX)
    ensures var s' := After(s, RENEW.env, RENEW.message);
            Saturated(s') && (1, 2) !in s'.liq.providers
  {
    assert PremiumShare(SETUP, WINDFALL) == WINDFALL;
    assert AccrualStep(WINDFALL, 1) == U128_MAX;
  }

  ghost predicate Saturated(s: State) {
    s.cfg == SETUP && 1 in s.liq.pools && s.liq.pools[1].isActive && s.liq.pools[1].acc == U128_MAX
  }

  lemma Joins(s: State)
    requires Saturated(s) && (1, 2) !in s.liq.providers
    ensures var s' := After(s, JOIN.env, JOIN.message);
            && Saturated(s') && (1, 2) in s'.liq.providers
            && s'.liq.providers[(1, 2)].stake == 1 && s'.liq.providers[(1, 2)].rewardDebt == U128_MAX / PRECISION
  {
  }

  lemma JoinsAgain(s: State)
    requires Saturated(s) && (1, 2) in s.liq.providers
    requires s.liq.providers[(1, 2)].stake == 1 && s.liq.providers[(1, 2)].rewardDebt == U128_MAX / PRECISION
    ensures var l := After(s, JOIN.env, JOIN.message).liq;
            1 in l.pools && (1, 2) in l.providers && !Unclipped(l.providers[(1, 2)], l.pools[1].acc)
  {
  }

  /** All but one unit of stake leave, a renewal worth 10^21 saturates the index, and two later
      deposits of one unit store more debt than they earned. */
  lemma SaturatedRun()
    ensures var l := Run(SETUP, Sell(None) + [LEAVE] + [RENEW] + [JOIN] + [JOIN]).s.liq;
            1 in l.pools && (1, 2) in l.providers && !Unclipped(l.providers[(1, 2)], l.pools[1].acc)
  {
    hide Run, After, HasPolicy, Unclipped;
    Sells(None);
    RunThen(SETUP, Sell(None), LEAVE);
    Leaves(Run(SETUP, Sell(None)).s);
    RunThen(SETUP, Sell(None) + [LEAVE], RENEW);
    Renews(Run(SETUP, Sell(None) + [LEAVE]).s);
    RunThen(SETUP, Sell(None) + [LEAVE] + [RENEW], JOIN);
    RunThen(SETUP, Sell(None) + [LEAVE] + [RENEW] + [JOIN], JOIN);
    Joins(Run(SETUP, Sell(None) + [LEAVE] + [RENEW]).s);
    JoinsAgain(Run(SETUP, Sell(None) + [LEAVE] + [RENEW] + [JOIN]).s);
  }
}
