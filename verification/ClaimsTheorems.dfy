/** What every run of the claims contract and its policy registry keeps: the lock agrees with a
    full scan of the claims, claims fit their policies, and each is paid at most once. */
module ClaimsTheorems {
  import opened Common
  import opened Claims
  import P = Policies

  /** What the policy registry said about the policy when a claim was filed on it, and when. */
  datatype Filing = Filing(policy: nat, active: bool, time: nat)

  /** Payments of each claim, the total paid, and the filings. */
  datatype Ledger = Ledger(payments: map<nat, nat>, paid: int, clock: nat, filings: map<nat, Filing>)

  const NO_LEDGER: Ledger := Ledger(map[], 0, 0, map[])

  function Post(g: Ledger, r: Receipt): Ledger {
    match r
    case Paid(id, _, amount) => g.(payments := g.payments[id := CountAt(g.payments, id) + 1], paid := g.paid + amount)
    case _ => g
  }

  // ---------------------------------------------------------------------------------------
  // The lock
  // ---------------------------------------------------------------------------------------

  predicate IsOpen(claim: Claim) {
    claim.status == Submitted || claim.status == UnderReview || claim.status == Approved
  }

  /** Full scan: the open claims on a policy. */
  function OpenClaims(d: Desk, policy: nat): set<nat> {
    set c | c in d.claims && d.claims[c].policy == policy && IsOpen(d.claims[c])
  }

  ghost predicate LockSound(d: Desk) {
    && (forall c: nat :: c in d.claims <==> 1 <= c <= d.counter)
    && (forall c: nat | c in d.claims && IsOpen(d.claims[c]) ::
          d.claims[c].policy in d.active && d.active[d.claims[c].policy] == c)
    && (forall p: nat | p in d.active ::
          d.active[p] in d.claims && d.claims[d.active[p]].policy == p && IsOpen(d.claims[d.active[p]]))
  }

  lemma FileLocks(d: Desk, claim: Claim)
    requires LockSound(d) && claim.policy !in d.active && claim.status == Submitted
    ensures LockSound(File(d, claim))
  {
  }

  lemma MoveLocks(d: Desk, id: nat, to: Status)
    requires LockSound(d) && id in d.claims && IsOpen(d.claims[id]) && (to == UnderReview || to == Approved)
    ensures LockSound(Move(d, id, to))
  {
  }

  lemma CloseLocks(d: Desk, id: nat, to: Status)
    requires LockSound(d) && id in d.claims && IsOpen(d.claims[id]) && (to == Rejected || to == Settled)
    ensures LockSound(Close(d, id, to))
  {
  }

  /** The lock is exactly what the scan finds. */
  lemma LockIsTheScan(d: Desk, policy: nat)
    requires LockSound(d)
    ensures OpenClaims(d, policy) == if policy in d.active then {d.active[policy]} else {}
  {
  }

  // ---------------------------------------------------------------------------------------
  // Claims and their policies
  // ---------------------------------------------------------------------------------------

  ghost predicate Backed(claim: Claim, registry: P.Registry) {
    && claim.policy in registry.policies
    && 0 < claim.amount <= registry.policies[claim.policy].coverage
    && claim.claimant == registry.policies[claim.policy].holder
  }

  ghost predicate ClaimsBacked(s: State) {
    && (forall p: nat :: p in s.registry.policies <==> 1 <= p <= s.registry.counter)
    && (forall c: nat | c in s.desk.claims :: Backed(s.desk.claims[c], s.registry))
  }

  /** Policies keep their holder and their coverage. */
  ghost predicate KeepsPolicies(r: P.Registry, r': P.Registry) {
    && (forall p: nat :: p in r'.policies <==> 1 <= p <= r'.counter)
    && r.counter <= r'.counter
    && (forall p: nat | p in r.policies ::
          && p in r'.policies
          && r'.policies[p].holder == r.policies[p].holder && r'.policies[p].coverage == r.policies[p].coverage)
  }

  ghost predicate AnswerKeepsPolicies(r: P.Registry, answer: P.Answer) {
    answer.Ok? ==> KeepsPolicies(r, answer.value.0)
  }

  lemma RegistryKeepsPolicies(r: P.Registry, e: P.Env, id: nat, holder: Address, x: int, y: int, days: P.U32)
    requires forall p: nat :: p in r.policies <==> 1 <= p <= r.counter
    ensures AnswerKeepsPolicies(r, P.Issue(r, e, holder, x, y, days))
    ensures AnswerKeepsPolicies(r, P.Renew(r, e, id, days))
    ensures AnswerKeepsPolicies(r, P.Cancel(r, e, id))
    ensures AnswerKeepsPolicies(r, P.Expire(r, e, id))
  {
    hide P.Expiry, P.Longer;
  }

  lemma RegistryBacks(s: State, registry: P.Registry)
    requires ClaimsBacked(s) && KeepsPolicies(s.registry, registry)
    ensures ClaimsBacked(s.(registry := registry))
  {
  }

  // ---------------------------------------------------------------------------------------
  // Payments
  // ---------------------------------------------------------------------------------------

  function SettledAmounts(): (nat, Claim) -> int {
    (c: nat, claim: Claim) => if claim.status == Settled then claim.amount else 0
  }

  ghost predicate Reconciled(d: Desk, g: Ledger) {
    && g.paid == SumBy(d.claims, SettledAmounts())
    && (forall c: nat | c in d.claims :: CountAt(g.payments, c) == Bit(d.claims[c].status == Settled))
    && (forall c: nat | c in g.payments :: c in d.claims)
  }

  lemma FileReconciles(d: Desk, g: Ledger, claim: Claim)
    requires Reconciled(d, g) && d.counter + 1 !in d.claims && claim.status == Submitted
    ensures Reconciled(File(d, claim), g)
  {
    SumInsert<nat, Claim>(d.claims, d.counter + 1, claim, SettledAmounts());
  }

  lemma MoveReconciles(d: Desk, g: Ledger, id: nat, to: Status, active: map<nat, nat>)
    requires Reconciled(d, g) && id in d.claims && d.claims[id].status != Settled && to != Settled
    ensures Reconciled(Move(d, id, to).(active := active), g)
  {
    SumInsert<nat, Claim>(d.claims, id, d.claims[id].(status := to), SettledAmounts());
  }

  lemma SettleReconciles(d: Desk, g: Ledger, id: nat)
    requires Reconciled(d, g) && id in d.claims && d.claims[id].status == Approved
    ensures Reconciled(Close(d, id, Settled), Post(g, Paid(id, d.claims[id].claimant, d.claims[id].amount)))
  {
    SumInsert<nat, Claim>(d.claims, id, d.claims[id].(status := Settled), SettledAmounts());
  }

  // ---------------------------------------------------------------------------------------
  // Every run
  // ---------------------------------------------------------------------------------------

  datatype Call = Call(env: P.Env, message: Message)

  datatype World = World(s: State, g: Ledger)

  /** Asks the registry at the moment a claim is filed. */
  function Ask(g: Ledger, registry: P.Registry, r: Receipt, now: nat): Ledger {
    if r.Filed?
    then
      var active := r.policy in registry.policies && P.IsActive(registry.policies[r.policy], now);
      g.(filings := g.filings[r.id := Filing(r.policy, active, now)])
    else g
  }

  function Exec(w: World, c: Call): World {
    match Handle(w.s, c.env, c.message)
    case Ok((s, r)) => World(s, Ask(Post(w.g, r), w.s.registry, r, c.env.now).(clock := c.env.now))
    case Err(_) => World(w.s, w.g.(clock := c.env.now))
  }

  function Run(start: State, calls: seq<Call>): World {
    if calls == [] then World(start, NO_LEDGER)
    else Exec(Run(start, calls[..|calls| - 1]), calls[|calls| - 1])
  }

  ghost predicate Good(w: World) {
    LockSound(w.s.desk) && ClaimsBacked(w.s) && Reconciled(w.s.desk, w.g)
  }

  /** Every claim was filed while its policy was active, at the time it carries. */
  ghost predicate FiledActive(d: Desk, g: Ledger) {
    && (forall c: nat | c in d.claims ::
          c in g.filings && g.filings[c] == Filing(d.claims[c].policy, true, d.claims[c].submittedAt))
    && (forall c: nat | c in d.claims :: c <= d.counter)
  }

  lemma MovesFiled(d: Desk, g: Ledger, g': Ledger, id: nat, to: Status)
    requires FiledActive(d, g) && id in d.claims && g'.filings == g.filings
    ensures FiledActive(Move(d, id, to), g') && FiledActive(Close(d, id, to), g') && FiledActive(d, g')
  {
  }

  lemma FilesFiled(d: Desk, g: Ledger, g': Ledger, claim: Claim)
    requires FiledActive(d, g)
    requires g'.filings == g.filings[d.counter + 1 := Filing(claim.policy, true, claim.submittedAt)]
    ensures FiledActive(File(d, claim), g')
  {
  }

  lemma FilingStep(w: World, c: Call)
    requires FiledActive(w.s.desk, w.g)
    ensures FiledActive(Exec(w, c).s.desk, Exec(w, c).g)
  {
    hide P.Issue, P.Renew, P.Cancel, P.Expire, P.IsActive, FiledActive, File, Move, Close;
    var d, g, g' := w.s.desk, w.g, Exec(w, c).g;
    match c.message
    case MSubmit(policy, amount) =>
      if Submit(w.s, c.env, policy, amount).Ok? {
        FilesFiled(d, g, g', Claim(policy, w.s.registry.policies[policy].holder, amount, Submitted, c.env.now));
      } else {
        SameFiled(d, g, g');
      }
    case MStartReview(id) =>
      if StepFault(d, c.env, id, Submitted).None? {
        MovesFiled(d, g, g', id, UnderReview);
      } else {
        SameFiled(d, g, g');
      }
    case MApprove(id) =>
      if StepFault(d, c.env, id, UnderReview).None? {
        MovesFiled(d, g, g', id, Approved);
      } else {
        SameFiled(d, g, g');
      }
    case MReject(id) =>
      if StepFault(d, c.env, id, UnderReview).None? {
        MovesFiled(d, g, g', id, Rejected);
      } else {
        SameFiled(d, g, g');
      }
    case MSettle(id, pool) =>
      if StepFault(d, c.env, id, Approved).None? {
        MovesFiled(d, g, g', id, Settled);
      } else {
        SameFiled(d, g, g');
      }
    case _ => SameFiled(d, g, g');
  }

  lemma SameFiled(d: Desk, g: Ledger, g': Ledger)
    requires FiledActive(d, g) && g'.filings == g.filings
    ensures FiledActive(d, g')
  {
  }

  lemma {:induction false} RunFiles(start: State, calls: seq<Call>)
    requires FiledActive(start.desk, NO_LEDGER)
    ensures FiledActive(Run(start, calls).s.desk, Run(start, calls).g)
  {
    hide Exec, FiledActive;
    if calls != [] {
      RunFiles(start, calls[..|calls| - 1]);
      FilingStep(Run(start, calls[..|calls| - 1]), calls[|calls| - 1]);
    }
  }

  lemma Later(w: World, now: nat)
    requires Good(w)
    ensures Good(World(w.s, w.g.(clock := now)))
  {
  }

  lemma RegistryGood(w: World, answer: P.Answer, now: nat)
    requires Good(w) && AnswerKeepsPolicies(w.s.registry, answer)
    ensures Lift(w.s, answer).Ok? ==> Good(World(Lift(w.s, answer).value.0, w.g.(clock := now)))
  {
    hide LockSound, ClaimsBacked, KeepsPolicies;
    Later(w, now);
    if answer.Ok? {
      RegistryBacks(w.s, answer.value.0);
    }
  }

  lemma SubmitGood(w: World, e: P.Env, policy: nat, amount: int)
    requires Good(w) && Submit(w.s, e, policy, amount).Ok?
    ensures Good(World(Submit(w.s, e, policy, amount).value.0, w.g))
  {
    hide Reconciled, P.IsActive;
    var claim := Claim(policy, w.s.registry.policies[policy].holder, amount, Submitted, e.now);
    FileLocks(w.s.desk, claim);
    FileReconciles(w.s.desk, w.g, claim);
  }

  lemma MoveBacks(s: State, id: nat, to: Status)
    requires ClaimsBacked(s) && id in s.desk.claims
    ensures ClaimsBacked(s.(desk := Move(s.desk, id, to))) && ClaimsBacked(s.(desk := Close(s.desk, id, to)))
  {
  }

  lemma MoveGood(w: World, id: nat, to: Status)
    requires Good(w) && id in w.s.desk.claims && IsOpen(w.s.desk.claims[id]) && (to == UnderReview || to == Approved)
    ensures Good(World(w.s.(desk := Move(w.s.desk, id, to)), w.g))
  {
    hide LockSound, ClaimsBacked, Reconciled;
    MoveLocks(w.s.desk, id, to);
    MoveBacks(w.s, id, to);
    MoveReconciles(w.s.desk, w.g, id, to, w.s.desk.active);
  }

  lemma RejectGood(w: World, id: nat)
    requires Good(w) && id in w.s.desk.claims && IsOpen(w.s.desk.claims[id])
    ensures Good(World(w.s.(desk := Close(w.s.desk, id, Rejected)), w.g))
  {
    hide LockSound, ClaimsBacked, Reconciled;
    CloseLocks(w.s.desk, id, Rejected);
    MoveBacks(w.s, id, Rejected);
    MoveReconciles(w.s.desk, w.g, id, Rejected, w.s.desk.active - {w.s.desk.claims[id].policy});
  }

  lemma SettleGood(w: World, id: nat)
    requires Good(w) && id in w.s.desk.claims && w.s.desk.claims[id].status == Approved
    ensures Good(World(w.s.(desk := Close(w.s.desk, id, Settled)),
                       Post(w.g, Paid(id, w.s.desk.claims[id].claimant, w.s.desk.claims[id].amount))))
  {
    hide LockSound, ClaimsBacked, Reconciled;
    CloseLocks(w.s.desk, id, Settled);
    MoveBacks(w.s, id, Settled);
    SettleReconciles(w.s.desk, w.g, id);
  }

  lemma NumberedPolicies(w: World)
    requires Good(w)
    ensures forall p: nat :: p in w.s.registry.policies <==> 1 <= p <= w.s.registry.counter
  {
  }

  lemma ExecGood(w: World, c: Call)
    requires Good(w)
    ensures Good(Exec(w, c))
  {
    hide Good, AnswerKeepsPolicies, P.Issue, P.Renew, P.Cancel, P.Expire, Submit, Move, Close;
    var r, e := w.s.registry, c.env;
    Later(w, e.now);
    var v := World(w.s, w.g.(clock := e.now));
    NumberedPolicies(w);
    match c.message
    case MIssue(holder, coverage, premium, days) =>
      RegistryKeepsPolicies(r, e, 0, holder, coverage, premium, days);
      RegistryGood(w, P.Issue(r, e, holder, coverage, premium, days), e.now);
    case MRenew(policy, more) =>
      RegistryKeepsPolicies(r, e, policy, 0, 0, 0, more);
      RegistryGood(w, P.Renew(r, e, policy, more), e.now);
    case MCancel(policy) =>
      RegistryKeepsPolicies(r, e, policy, 0, 0, 0, 0);
      RegistryGood(w, P.Cancel(r, e, policy), e.now);
    case MExpire(policy) =>
      RegistryKeepsPolicies(r, e, policy, 0, 0, 0, 0);
      RegistryGood(w, P.Expire(r, e, policy), e.now);
    case MSubmit(policy, amount) =>
      if Submit(w.s, e, policy, amount).Ok? {
        SubmitGood(v, e, policy, amount);
        SubmitReceipt(w.s, e, policy, amount);
        FilingsOnly(World(Submit(w.s, e, policy, amount).value.0, v.g), Exec(w, c).g.filings);
      }
    case MStartReview(id) =>
      if StartReview(w.s, e, id).Ok? {
        MoveGood(v, id, UnderReview);
      }
    case MApprove(id) =>
      if Approve(w.s, e, id).Ok? {
        MoveGood(v, id, Approved);
      }
    case MReject(id) =>
      if Reject(w.s, e, id).Ok? {
        RejectGood(v, id);
      }
    case MSettle(id, pool) =>
      if Settle(w.s, e, id, pool).Ok? {
        SettleGood(v, id);
      }
  }

  lemma SubmitReceipt(s: State, e: P.Env, policy: nat, amount: int)
    requires Submit(s, e, policy, amount).Ok?
    ensures Submit(s, e, policy, amount).value.1.Filed?
  {
  }

  lemma NewGood(registryAdmin: Address, claimsAdmin: Address)
    ensures Good(World(New(registryAdmin, claimsAdmin), NO_LEDGER))
  {
  }

  /** The ledger of filings plays no part in the accounts. */
  lemma FilingsOnly(w: World, filings: map<nat, Filing>)
    requires Good(w)
    ensures Good(World(w.s, w.g.(filings := filings)))
  {
  }

  lemma {:induction false} RunGood(start: State, calls: seq<Call>)
    requires Good(World(start, NO_LEDGER))
    ensures Good(Run(start, calls))
  {
    hide Good, Exec;
    if calls != [] {
      RunGood(start, calls[..|calls| - 1]);
      ExecGood(Run(start, calls[..|calls| - 1]), calls[|calls| - 1]);
    }
  }

  /** The lock entry of a policy names its one open claim, and there is no entry exactly when
      a scan of all claims finds none. */
  lemma EveryRunLocksTheOpenClaim(registryAdmin: Address, claimsAdmin: Address, calls: seq<Call>, policy: nat)
    ensures var d := Run(New(registryAdmin, claimsAdmin), calls).s.desk;
            OpenClaims(d, policy) == if policy in d.active then {d.active[policy]} else {}
  {
    hide Run, ClaimsBacked, Reconciled, LockSound, OpenClaims;
    NewGood(registryAdmin, claimsAdmin);
    RunGood(New(registryAdmin, claimsAdmin), calls);
    LockIsTheScan(Run(New(registryAdmin, claimsAdmin), calls).s.desk, policy);
  }

  /** Every claim is for a positive amount within its policy's coverage, belongs to the policy's
      holder, and was filed while the registry called the policy active. */
  lemma EveryRunBacksClaims(registryAdmin: Address, claimsAdmin: Address, calls: seq<Call>, c: nat)
    requires c in Run(New(registryAdmin, claimsAdmin), calls).s.desk.claims
    ensures var s := Run(New(registryAdmin, claimsAdmin), calls).s; Backed(s.desk.claims[c], s.registry)
    ensures var w := Run(New(registryAdmin, claimsAdmin), calls);
            var claim := w.s.desk.claims[c];
            c in w.g.filings && w.g.filings[c] == Filing(claim.policy, true, claim.submittedAt)
  {
    hide Run, LockSound, Reconciled, Backed;
    NewGood(registryAdmin, claimsAdmin);
    RunFiles(New(registryAdmin, claimsAdmin), calls);
    RunGood(New(registryAdmin, claimsAdmin), calls);
  }

  /** A claim is paid once if it is settled and otherwise never; the pool paid the sum of the
      settled amounts. */
  lemma EveryRunPaysSettledClaimsOnce(registryAdmin: Address, claimsAdmin: Address, calls: seq<Call>)
    ensures var w := Run(New(registryAdmin, claimsAdmin), calls);
            && w.g.paid == SumBy(w.s.desk.claims, SettledAmounts())
            && (forall c: nat | c in w.s.desk.claims :: CountAt(w.g.payments, c) == Bit(w.s.desk.claims[c].status == Settled))
  {
    hide Run, LockSound, ClaimsBacked, SumBy;
    NewGood(registryAdmin, claimsAdmin);
    RunGood(New(registryAdmin, claimsAdmin), calls);
  }

  // ---------------------------------------------------------------------------------------
  // Lapsed policies
  // ---------------------------------------------------------------------------------------

  ghost predicate Forward(calls: seq<Call>) {
    forall i, j | 0 <= i <= j < |calls| :: calls[i].env.now <= calls[j].env.now
  }

  ghost predicate Lapsed(s: State, policy: nat, now: nat) {
    policy in s.registry.policies && !P.IsActive(s.registry.policies[policy], now)
  }

  /** The claims ever filed on a policy. */
  function ClaimsOn(d: Desk, policy: nat): set<nat> {
    set c | c in d.claims && d.claims[c].policy == policy
  }

  lemma LapsedRegistry(r: P.Registry, e: P.Env, now: nat, policy: nat, id: nat, holder: Address, x: int, y: int, days: P.U32)
    requires policy in r.policies && policy <= r.counter && now <= e.now && !P.IsActive(r.policies[policy], now)
    ensures StaysLapsed(P.Issue(r, e, holder, x, y, days), policy, e.now)
    ensures StaysLapsed(P.Renew(r, e, id, days), policy, e.now)
    ensures StaysLapsed(P.Cancel(r, e, id), policy, e.now)
    ensures StaysLapsed(P.Expire(r, e, id), policy, e.now)
  {
    hide P.Longer;
  }

  ghost predicate StaysLapsed(answer: P.Answer, policy: nat, now: nat) {
    answer.Ok? ==>
      policy in answer.value.0.policies && policy <= answer.value.0.counter && !P.IsActive(answer.value.0.policies[policy], now)
  }

  lemma StepStaysLapsed(w: World, c: Call, now: nat, policy: nat)
    requires Lapsed(w.s, policy, now) && policy <= w.s.registry.counter && now <= c.env.now
    requires forall id: nat | id in w.s.desk.claims :: id <= w.s.desk.counter
    ensures var s' := Exec(w, c).s;
            && Lapsed(s', policy, c.env.now) && policy <= s'.registry.counter
            && ClaimsOn(s'.desk, policy) == ClaimsOn(w.s.desk, policy)
            && (forall id: nat | id in s'.desk.claims :: id <= s'.desk.counter)
    ensures c.message.MSubmit? && c.message.policy == policy ==> Handle(w.s, c.env, c.message).Err?
  {
    hide P.Issue, P.Renew, P.Cancel, P.Expire, P.Expiry, Post;
    var r, e := w.s.registry, c.env;
    match c.message
    case MIssue(holder, coverage, premium, days) => LapsedRegistry(r, e, now, policy, 0, holder, coverage, premium, days);
    case MRenew(id, more) => LapsedRegistry(r, e, now, policy, id, 0, 0, 0, more);
    case MCancel(id) => LapsedRegistry(r, e, now, policy, id, 0, 0, 0, 0);
    case MExpire(id) => LapsedRegistry(r, e, now, policy, id, 0, 0, 0, 0);
    case _ =>
  }

  lemma {:induction false} LatestClock(start: State, calls: seq<Call>)
    requires calls != []
    ensures Run(start, calls).g.clock == calls[|calls| - 1].env.now
  {
    hide Handle, Post;
  }

  /** Once a policy is not active it never is again, whatever is called in whatever order on a
      clock that does not go back, and no claim is ever added to it. */
  lemma {:induction false} LapsedPoliciesTakeNoClaims(registryAdmin: Address, claimsAdmin: Address, calls: seq<Call>, k: nat, policy: nat)
    requires Forward(calls) && 0 < k <= |calls|
    requires var w := Run(New(registryAdmin, claimsAdmin), calls[..k]); Lapsed(w.s, policy, w.g.clock)
    ensures var w, w' := Run(New(registryAdmin, claimsAdmin), calls[..k]), Run(New(registryAdmin, claimsAdmin), calls);
            && Lapsed(w'.s, policy, w'.g.clock) && policy <= w'.s.registry.counter
            && ClaimsOn(w'.s.desk, policy) == ClaimsOn(w.s.desk, policy)
            && (forall id: nat | id in w'.s.desk.claims :: id <= w'.s.desk.counter)
  {
    hide Exec, Lapsed, ClaimsOn, Backed, Reconciled, Run;
    var start := New(registryAdmin, claimsAdmin);
    if k == |calls| {
      assert calls[..k] == calls;
      NewGood(registryAdmin, claimsAdmin);
      RunGood(start, calls);
      LapsedKnown(Run(start, calls).s, policy, Run(start, calls).g.clock);
    } else {
      var before, c := calls[..|calls| - 1], calls[|calls| - 1];
      assert before[..k] == calls[..k];
      LapsedPoliciesTakeNoClaims(registryAdmin, claimsAdmin, before, k, policy);
      LatestClock(start, before);
      StepStaysLapsed(Run(start, before), c, Run(start, before).g.clock, policy);
      LatestClock(start, calls);
      RunStep(start, calls);
    }
  }

  lemma LapsedKnown(s: State, policy: nat, now: nat)
    requires Lapsed(s, policy, now)
    ensures policy in s.registry.policies
  {
  }

  lemma RunStep(start: State, calls: seq<Call>)
    requires calls != []
    ensures Run(start, calls) == Exec(Run(start, calls[..|calls| - 1]), calls[|calls| - 1])
  {
    hide Exec;
  }

  // ---------------------------------------------------------------------------------------
  // Settlements and coverage
  // ---------------------------------------------------------------------------------------

  function SettledOn(policy: nat): (nat, Claim) -> int {
    (c: nat, claim: Claim) => if claim.status == Settled && claim.policy == policy then claim.amount else 0
  }

  ghost function Total(d: Desk, policy: nat): int {
    SumBy(d.claims, SettledOn(policy))
  }

  function CoverageOf(r: P.Registry, policy: nat): nat {
    if policy in r.policies then Pos(r.policies[policy].coverage) else 0
  }

  /** What a message settles on a policy. */
  function Settles(s: State, c: Call, policy: nat): int {
    match c.message
    case MSettle(id, pool) =>
      if Settle(s, c.env, id, pool).Ok? && s.desk.claims[id].policy == policy then s.desk.claims[id].amount else 0
    case _ => 0
  }

  /** The message settles more than the policy has left. */
  ghost predicate Overpays(s: State, c: Call, policy: nat) {
    Settles(s, c, policy) > 0 && Settles(s, c, policy) > CoverageOf(s.registry, policy) - Total(s.desk, policy)
  }

  ghost predicate NeverOverpays(start: State, calls: seq<Call>, policy: nat) {
    calls == []
    || (NeverOverpays(start, calls[..|calls| - 1], policy)
        && !Overpays(Run(start, calls[..|calls| - 1]).s, calls[|calls| - 1], policy))
  }

  lemma RewriteTotals(d: Desk, id: nat, claim: Claim, policy: nat)
    ensures SumBy(d.claims[id := claim], SettledOn(policy))
            == Total(d, policy) - (if id in d.claims then SettledOn(policy)(id, d.claims[id]) else 0) + SettledOn(policy)(id, claim)
  {
    SumInsert<nat, Claim>(d.claims, id, claim, SettledOn(policy));
  }

  lemma StepTotals(w: World, c: Call, policy: nat)
    requires w.s.desk.counter + 1 !in w.s.desk.claims
    ensures Total(Exec(w, c).s.desk, policy) == Total(w.s.desk, policy) + Settles(w.s, c, policy)
  {
    hide P.Issue, P.Renew, P.Cancel, P.Expire, P.IsActive, SumBy, Post;
    var d := w.s.desk;
    match c.message
    case MSubmit(i, amount) =>
      if Submit(w.s, c.env, i, amount).Ok? {
        RewriteTotals(d, d.counter + 1, Claim(i, w.s.registry.policies[i].holder, amount, Submitted, c.env.now), policy);
      }
    case MStartReview(id) =>
      if StepFault(d, c.env, id, Submitted).None? {
        RewriteTotals(d, id, d.claims[id].(status := UnderReview), policy);
      }
    case MApprove(id) =>
      if StepFault(d, c.env, id, UnderReview).None? {
        RewriteTotals(d, id, d.claims[id].(status := Approved), policy);
      }
    case MReject(id) =>
      if StepFault(d, c.env, id, UnderReview).None? {
        RewriteTotals(d, id, d.claims[id].(status := Rejected), policy);
      }
    case MSettle(id, pool) =>
      if StepFault(d, c.env, id, Approved).None? {
        RewriteTotals(d, id, d.claims[id].(status := Settled), policy);
      }
    case _ =>
  }

  lemma AnswerKeepsCoverage(s: State, answer: P.Answer, policy: nat)
    requires AnswerKeepsPolicies(s.registry, answer) && policy in s.registry.policies
    ensures Lift(s, answer).Ok? ==> CoverageOf(Lift(s, answer).value.0.registry, policy) == CoverageOf(s.registry, policy)
  {
  }

  lemma StepCoverage(w: World, c: Call, policy: nat)
    requires Good(w) && policy in w.s.registry.policies
    ensures CoverageOf(Exec(w, c).s.registry, policy) == CoverageOf(w.s.registry, policy)
  {
    hide Good, AnswerKeepsPolicies, P.Issue, P.Renew, P.Cancel, P.Expire, CoverageOf, Lift, Post, P.IsActive;
    var r, e := w.s.registry, c.env;
    NumberedPolicies(w);
    match c.message
    case MIssue(holder, coverage, premium, days) =>
      RegistryKeepsPolicies(r, e, 0, holder, coverage, premium, days);
      AnswerKeepsCoverage(w.s, P.Issue(r, e, holder, coverage, premium, days), policy);
    case MRenew(id, more) =>
      RegistryKeepsPolicies(r, e, id, 0, 0, 0, more);
      AnswerKeepsCoverage(w.s, P.Renew(r, e, id, more), policy);
    case MCancel(id) =>
      RegistryKeepsPolicies(r, e, id, 0, 0, 0, 0);
      AnswerKeepsCoverage(w.s, P.Cancel(r, e, id), policy);
    case MExpire(id) =>
      RegistryKeepsPolicies(r, e, id, 0, 0, 0, 0);
      AnswerKeepsCoverage(w.s, P.Expire(r, e, id), policy);
    case _ =>
  }

  /** A policy nobody issued has no claims, and settled amounts are never negative. */
  lemma {:induction false} TotalsKnown(claims: map<nat, Claim>, r: P.Registry, policy: nat)
    requires forall c: nat | c in claims :: Backed(claims[c], r)
    ensures SumBy(claims, SettledOn(policy)) >= 0
    ensures policy !in r.policies ==> SumBy(claims, SettledOn(policy)) == 0
    decreases |claims|
  {
    hide SumBy;
    if claims == map[] {
      EmptySum(policy);
    } else {
      var c :| c in claims;
      assert Backed(claims[c], r);
      TotalsKnown(claims - {c}, r, policy);
      SumRemove(claims, c, SettledOn(policy));
    }
  }

  lemma EmptySum(policy: nat)
    ensures SumBy<nat, Claim>(map[], SettledOn(policy)) == 0
  {
  }

  lemma SettlesKnown(w: World, c: Call, policy: nat)
    requires Good(w)
    ensures Settles(w.s, c, policy) >= 0
    ensures policy !in w.s.registry.policies ==> Settles(w.s, c, policy) == 0
    ensures Total(w.s.desk, policy) >= 0
    ensures policy !in w.s.registry.policies ==> Total(w.s.desk, policy) == 0
    ensures w.s.desk.counter + 1 !in w.s.desk.claims
  {
    hide Reconciled, SumBy;
    TotalsKnown(w.s.desk.claims, w.s.registry, policy);
    if c.message.MSettle? && c.message.id in w.s.desk.claims {
      assert Backed(w.s.desk.claims[c.message.id], w.s.registry);
    }
  }

  lemma {:induction false} RunStaysCovered(start: State, calls: seq<Call>, policy: nat)
    requires Good(World(start, NO_LEDGER)) && start.desk.claims == map[]
    ensures var s := Run(start, calls).s;
            Total(s.desk, policy) <= CoverageOf(s.registry, policy) <==> NeverOverpays(start, calls, policy)
  {
    hide Good, Exec, Settles, CoverageOf, SumBy;
    if calls == [] {
      EmptySum(policy);
    } else {
      var before, c := calls[..|calls| - 1], calls[|calls| - 1];
      RunStaysCovered(start, before, policy);
      RunGood(start, before);
      var w := Run(start, before);
      SettlesKnown(w, c, policy);
      StepTotals(w, c, policy);
      if policy in w.s.registry.policies {
        StepCoverage(w, c, policy);
      } else {
        NoCoverage(w.s.registry, policy);
      }
    }
  }

  lemma NoCoverage(r: P.Registry, policy: nat)
    requires policy !in r.policies
    ensures CoverageOf(r, policy) == 0
  {
  }

  /** What was settled on a policy stays within its coverage if and only if no settlement of the
      run was for more than was left, which no check ensures. */
  lemma EveryRunStaysCovered(registryAdmin: Address, claimsAdmin: Address, calls: seq<Call>, policy: nat)
    ensures var s := Run(New(registryAdmin, claimsAdmin), calls).s;
            Total(s.desk, policy) <= CoverageOf(s.registry, policy)
            <==> NeverOverpays(New(registryAdmin, claimsAdmin), calls, policy)
  {
    hide Run, Good, CoverageOf, Total, NeverOverpays;
    NewGood(registryAdmin, claimsAdmin);
    RunStaysCovered(New(registryAdmin, claimsAdmin), calls, policy);
  }

  lemma RunThen(start: State, calls: seq<Call>, c: Call)
    ensures Run(start, calls + [c]) == Exec(Run(start, calls), c)
  {
    hide Exec;
    assert (calls + [c])[..|calls + [c]| - 1] == calls;
  }

  /** `calls`, then a claim by account 2 for the whole coverage, from filing to settlement. */
  function ThenClaim(calls: seq<Call>, id: nat, coverage: nat): seq<Call> {
    calls + [Call(P.Env(2, 0), MSubmit(1, coverage))] + [Call(P.Env(1, 0), MStartReview(id))]
    + [Call(P.Env(1, 0), MApprove(id))] + [Call(P.Env(1, 0), MSettle(id, Pool(coverage, true)))]
  }

  /** One policy of account 2, with `n` full claims settled and none open. */
  ghost predicate AllSettled(s: State, n: nat, coverage: nat) {
    && s.registry.policies == map[1 := P.Policy(2, coverage, 1, 0, 10, P.Active)]
    && s.desk.admin == 1 && s.desk.counter == n && s.desk.active == map[]
    && (forall c: nat | c in s.desk.claims :: c <= n)
    && Total(s.desk, 1) == n * coverage
  }

  /** One more claim on it is on its way. */
  ghost predicate OneOpen(s: State, n: nat, coverage: nat, status: Status) {
    && s.registry.policies == map[1 := P.Policy(2, coverage, 1, 0, 10, P.Active)]
    && s.desk.admin == 1 && s.desk.counter == n + 1 && s.desk.active == map[1 := n + 1]
    && (forall c: nat | c in s.desk.claims :: c <= n + 1)
    && n + 1 in s.desk.claims && s.desk.claims[n + 1] == Claim(1, 2, coverage, status, 0)
    && Total(s.desk, 1) == n * coverage
  }

  lemma Opens(w: World, n: nat, coverage: nat)
    requires AllSettled(w.s, n, coverage) && coverage > 0
    ensures OneOpen(Exec(w, Call(P.Env(2, 0), MSubmit(1, coverage))).s, n, coverage, Submitted)
  {
    hide Total, Post, Ask;
    StepTotals(w, Call(P.Env(2, 0), MSubmit(1, coverage)), 1);
  }

  lemma Advances(w: World, n: nat, coverage: nat)
    ensures OneOpen(w.s, n, coverage, Submitted) ==>
              OneOpen(Exec(w, Call(P.Env(1, 0), MStartReview(n + 1))).s, n, coverage, UnderReview)
    ensures OneOpen(w.s, n, coverage, UnderReview) ==>
              OneOpen(Exec(w, Call(P.Env(1, 0), MApprove(n + 1))).s, n, coverage, Approved)
  {
    hide Total, Post, Ask;
    if n + 2 !in w.s.desk.claims && w.s.desk.counter == n + 1 {
      StepTotals(w, Call(P.Env(1, 0), MStartReview(n + 1)), 1);
      StepTotals(w, Call(P.Env(1, 0), MApprove(n + 1)), 1);
    }
  }

  lemma Closes(w: World, n: nat, coverage: nat)
    requires OneOpen(w.s, n, coverage, Approved) && coverage > 0
    ensures AllSettled(Exec(w, Call(P.Env(1, 0), MSettle(n + 1, Pool(coverage, true)))).s, n + 1, coverage)
  {
    hide Total, Post, Ask;
    StepTotals(w, Call(P.Env(1, 0), MSettle(n + 1, Pool(coverage, true))), 1);
  }

  lemma ClaimSettles(start: State, calls: seq<Call>, n: nat, coverage: nat)
    requires AllSettled(Run(start, calls).s, n, coverage) && coverage > 0
    ensures AllSettled(Run(start, ThenClaim(calls, n + 1, coverage)).s, n + 1, coverage)
  {
    hide Run, Exec, AllSettled, OneOpen;
    var submit, review := Call(P.Env(2, 0), MSubmit(1, coverage)), Call(P.Env(1, 0), MStartReview(n + 1));
    var approve, settle := Call(P.Env(1, 0), MApprove(n + 1)), Call(P.Env(1, 0), MSettle(n + 1, Pool(coverage, true)));
    RunThen(start, calls, submit);
    Opens(Run(start, calls), n, coverage);
    RunThen(start, calls + [submit], review);
    Advances(Run(start, calls + [submit]), n, coverage);
    RunThen(start, calls + [submit] + [review], approve);
    Advances(Run(start, calls + [submit] + [review]), n, coverage);
    RunThen(start, calls + [submit] + [review] + [approve], settle);
    Closes(Run(start, calls + [submit] + [review] + [approve]), n, coverage);
  }

  /** A settled policy can be claimed on again: any number of full claims is settled on it. */
  lemma CoverageIsSettledTwice(coverage: nat)
    requires coverage > 0
    ensures var calls := [Call(P.Env(1, 0), MIssue(2, coverage, 1, 10))];
            var s := Run(New(1, 1), ThenClaim(ThenClaim(calls, 1, coverage), 2, coverage)).s;
            Total(s.desk, 1) == 2 * coverage && CoverageOf(s.registry, 1) == coverage
  {
    hide Run, Total, ThenClaim;
    var issue := Call(P.Env(1, 0), MIssue(2, coverage, 1, 10));
    NothingRun();
    assert [] + [issue] == [issue];
    RunThen(New(1, 1), [], issue);
    ClaimSettles(New(1, 1), [issue], 0, coverage);
    ClaimSettles(New(1, 1), ThenClaim([issue], 1, coverage), 1, coverage);
  }

  lemma NothingRun()
    ensures Run(New(1, 1), []) == World(New(1, 1), NO_LEDGER) && Total(New(1, 1).desk, 1) == 0
  {
  }
}
