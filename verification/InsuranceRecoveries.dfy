/** Reinsurance: which agreement a payout recovers from, and the ledger of all recoveries. */
module InsuranceRecoveries {
  import opened Common
  import opened Liquidity
  import opened Insurance
  import opened InsuranceRuns
  import opened InsurancePolicies

  /** A recovery is booked on the first agreement that contributes and on no other, and if none
      contributes nothing is booked. */
  lemma {:induction false} RecoveryIsBookedOnce(agreements: map<nat, Agreement>, i: nat, count: nat, amount: nat, now: nat)
      returns (first: nat)
    ensures i <= first <= count ==>
              && first in agreements && Recovery(agreements[first], amount, now) > 0
              && RecoverFrom(agreements, i, count, amount, now)
                 == agreements[first := agreements[first].(recovered := agreements[first].recovered
                                                                        + Recovery(agreements[first], amount, now))]
              && Recovery(agreements[first], amount, now) <= agreements[first].limit
              && Recovery(agreements[first], amount, now) + agreements[first].retention <= amount
    ensures !(i <= first <= count) ==> RecoverFrom(agreements, i, count, amount, now) == agreements
    ensures forall j: nat | i <= j < first && j <= count && j in agreements :: Recovery(agreements[j], amount, now) == 0
    ensures first >= i && first <= (if i <= count then count + 1 else i)
    decreases count + 1 - i
  {
    if i > count || (i in agreements && Recovery(agreements[i], amount, now) > 0) {
      first := i;
    } else {
      first := RecoveryIsBookedOnce(agreements, i + 1, count, amount, now);
    }
  }

  // ---------------------------------------------------------------------------------------
  // What a message books
  // ---------------------------------------------------------------------------------------

  /** A recovery booked on one agreement; an amount of zero books nothing. */
  datatype Booking = Booking(agreement: nat, amount: nat)

  const NO_BOOKING: Booking := Booking(0, 0)

  function On(k: Booking, g: nat): nat {
    if k.agreement == g then k.amount else 0
  }

  function RecoveredOf(): (nat, Agreement) -> int {
    (i: nat, agreement: Agreement) => agreement.recovered
  }

  /** The recovery from the first agreement from `i` on that contributes. */
  function FirstRecovery(agreements: map<nat, Agreement>, i: nat, count: nat, amount: nat, now: nat): Booking
    decreases count + 1 - i
  {
    if i > count then NO_BOOKING
    else if i in agreements && Recovery(agreements[i], amount, now) > 0 then
      Booking(i, Recovery(agreements[i], amount, now))
    else FirstRecovery(agreements, i + 1, count, amount, now)
  }

  /** What approving claim `c` recovers, paid or not. */
  function RecoveredBy(s: State, c: nat, now: nat): Booking {
    if ReviewFault(s.book, c, true).Some? then NO_BOOKING
    else
      var payout, p := PayoutOf(s.book, c), s.book.policies[s.book.claims[c].policy].pool;
      if payout == 0 || p !in s.liq.pools || payout <= s.liq.pools[p].reinsuranceThreshold then NO_BOOKING
      else FirstRecovery(s.book.agreements, 1, s.book.agreementCount, payout, now)
  }

  /** What a review on its own books: it needs a caller who may and a funded claim. */
  function BookedAlone(s: State, e: Env, c: nat): Booking {
    if ApprovedBy(s, e, MProcess(c, true)).Some? && ReviewFault(s.book, c, true).None? && Funded(s, c)
    then RecoveredBy(s, c, e.now) else NO_BOOKING
  }

  /** What a message books, as its caller can tell beforehand: a review in a batch needs no
      funds, and a submission reviewed at once counts as a review on its own. */
  function Booked(s: State, e: Env, m: Message): Booking {
    match m
    case MProcess(c, approved) => if approved then BookedAlone(s, e, c) else NO_BOOKING
    case MProcessInBatch(c, approved) => if ApprovedBy(s, e, m).Some? then RecoveredBy(s, c, e.now) else NO_BOOKING
    case MSubmit(i, amount, ev, nonce) =>
      if SubmitFault(s, e, i, amount, ev, nonce).None? && ReviewedAtOnce(s, i) then
        BookedAlone(Submitted(s, e, i, amount), e, s.book.claimCount + 1)
      else NO_BOOKING
    case _ => NO_BOOKING
  }

  /** Agreements are numbered, so a new one never replaces an old one. */
  ghost predicate AgreementsNumbered(b: Book) {
    forall i: nat | i in b.agreements :: i <= b.agreementCount
  }

  /** The booking is all that happens to the agreements there were; new ones start empty. */
  ghost predicate Books(b: Book, b': Book, k: Booking) {
    && AgreementsNumbered(b')
    && SumBy(b'.agreements, RecoveredOf()) == SumBy(b.agreements, RecoveredOf()) + k.amount
    && (forall g: nat | g in b.agreements ::
          && g in b'.agreements
          && b'.agreements[g] == b.agreements[g].(recovered := b.agreements[g].recovered + On(k, g)))
    && (forall g: nat | g in b'.agreements && g !in b.agreements ::
          b'.agreements[g].recovered == 0 && b'.agreements[g].limit > 0)
  }

  lemma {:induction false} RecoveryAdds(agreements: map<nat, Agreement>, i: nat, count: nat, amount: nat, now: nat)
    ensures var agreements', k := RecoverFrom(agreements, i, count, amount, now), FirstRecovery(agreements, i, count, amount, now);
            && agreements'.Keys == agreements.Keys
            && SumBy(agreements', RecoveredOf()) == SumBy(agreements, RecoveredOf()) + k.amount
            && (k.amount > 0 ==> k.agreement in agreements)
            && (forall g: nat | g in agreements ::
                  agreements'[g] == agreements[g].(recovered := agreements[g].recovered + On(k, g)))
    decreases count + 1 - i
  {
    if i <= count {
      if i in agreements && Recovery(agreements[i], amount, now) > 0 {
        var g := agreements[i];
        SumInsert<nat, Agreement>(agreements, i, g.(recovered := g.recovered + Recovery(g, amount, now)), RecoveredOf());
      } else {
        RecoveryAdds(agreements, i + 1, count, amount, now);
      }
    }
  }

  lemma PayoutBooks(s: State, c: nat, i: nat, amount: nat, now: nat)
    requires AgreementsNumbered(s.book) && i in s.book.policies
    ensures var p := s.book.policies[i].pool;
            Books(s.book, ExecutePayout(s, c, i, amount, now).0.book,
                  if amount > 0 && p in s.liq.pools && amount > s.liq.pools[p].reinsuranceThreshold
                  then FirstRecovery(s.book.agreements, 1, s.book.agreementCount, amount, now) else NO_BOOKING)
  {
    hide Recovered, PayOut, Books, FirstRecovery;
    NothingBooked(s.book);
    var p := s.book.policies[i].pool;
    if amount > 0 && p in s.liq.pools {
      RecoveredBooks(s, s.liq.pools[p], amount, now);
      RecoveryTouchesOnly(s, s.liq.pools[p], amount, now);
      if s.liq.pools[p].availableCapital >= amount {
        PayOutBooks(s, Recovered(s, s.liq.pools[p], amount, now), c, i, amount, now,
                    if amount > s.liq.pools[p].reinsuranceThreshold
                    then FirstRecovery(s.book.agreements, 1, s.book.agreementCount, amount, now) else NO_BOOKING);
      }
    }
  }

  lemma NothingBooked(b: Book)
    requires AgreementsNumbered(b)
    ensures Books(b, b, NO_BOOKING)
  {
  }

  lemma RecoveredBooks(s: State, q: Pool, amount: nat, now: nat)
    requires AgreementsNumbered(s.book)
    ensures Books(s.book, Recovered(s, q, amount, now).book,
                  if amount > q.reinsuranceThreshold
                  then FirstRecovery(s.book.agreements, 1, s.book.agreementCount, amount, now) else NO_BOOKING)
  {
    hide RecoverFrom, FirstRecovery;
    RecoveryAdds(s.book.agreements, 1, s.book.agreementCount, amount, now);
  }

  lemma PayOutBooks(s: State, s1: State, c: nat, i: nat, amount: nat, now: nat, k: Booking)
    requires i in s1.book.policies && s1.book.policies[i].pool in s1.liq.pools && Books(s.book, s1.book, k)
    ensures Books(s.book, PayOut(s1, c, i, amount, now).book, k)
  {
    hide PayClaim;
  }

  lemma InnerBooks(s: State, e: Env, c: nat, approved: bool)
    requires AgreementsNumbered(s.book)
    ensures Books(s.book, ProcessClaimInner(s, e, c, approved).0.book,
                  if approved then RecoveredBy(s, c, e.now) else NO_BOOKING)
  {
    hide ExecutePayout, PayoutOf, Approval, Rejection, FirstRecovery;
    if approved && ReviewFault(s.book, c, approved).None? {
      var payout := PayoutOf(s.book, c);
      PayoutBooks(SetClaim(s, c, Approval(s.book.claims[c], e, payout)), c, s.book.claims[c].policy, payout, e.now);
    }
  }

  lemma OthersLeaveAgreements(s: State, e: Env, m: Message)
    requires Handle(s, e, m).Ok? && !m.MSubmit? && !m.MProcess? && !m.MProcessInBatch? && !m.MReinsure?
    ensures var b := Handle(s, e, m).value.0.book;
            b.agreements == s.book.agreements && b.agreementCount == s.book.agreementCount
  {
    hide Deposit, Withdraw, ClaimRewards, Reinvest, ClaimVested, CreatePool, ConfigureVesting, ExpireFrom, TakePremium,
         ApplicationFault, Fee, Deductible, EndIn, Accrued, HasRole, SubmitClaim, ProcessClaim, ProcessInBatch, Without;
  }

  lemma ReinsureBooks(s: State, e: Env, reinsurer: Address, limit: nat, retention: nat, rate: nat, coverages: nat, duration: nat)
    requires AgreementsNumbered(s.book) && RegisterReinsurance(s, e, reinsurer, limit, retention, rate, coverages, duration).Ok?
    ensures Books(s.book, RegisterReinsurance(s, e, reinsurer, limit, retention, rate, coverages, duration).value.0.book, NO_BOOKING)
  {
    hide HasRole;
    var id := s.book.agreementCount + 1;
    SumInsert<nat, Agreement>(s.book.agreements, id, Agreement(limit, retention, SatTime(e.now, duration), true, 0), RecoveredOf());
  }

  lemma ReviewBooks(s: State, e: Env, c: nat, approved: bool)
    requires AgreementsNumbered(s.book)
    ensures Books(s.book, After(s, e, MProcess(c, approved)).book, Booked(s, e, MProcess(c, approved)))
    ensures Books(s.book, After(s, e, MProcessInBatch(c, approved)).book, Booked(s, e, MProcessInBatch(c, approved)))
  {
    hide ProcessClaimInner, Books, HasRole, AgreementsNumbered, FirstRecovery, PayoutOf;
    NothingBooked(s.book);
    InnerBooks(s, e, c, approved);
    ReviewOutcome(s, e, c);
  }

  lemma SubmitBooks(s: State, e: Env, i: nat, amount: nat, ev: Evidence, nonce: nat)
    requires AgreementsNumbered(s.book)
    ensures Books(s.book, After(s, e, MSubmit(i, amount, ev, nonce)).book, Booked(s, e, MSubmit(i, amount, ev, nonce)))
  {
    hide ProcessClaim, SubmitFault, BookedAlone, Books, AgreementsNumbered, FileClaim, Logged;
    NothingBooked(s.book);
    if SubmitFault(s, e, i, amount, ev, nonce).None? {
      SubmitFinds(s, e, i, amount, ev, nonce);
      FilingLeaves(s, e, i, amount, ev, nonce);
      if ReviewedAtOnce(s, i) {
        ReviewBooks(Submitted(s, e, i, amount), e, s.book.claimCount + 1, true);
        SameBooks(s.book, Submitted(s, e, i, amount).book,
                  After(Submitted(s, e, i, amount), e, MProcess(s.book.claimCount + 1, true)).book,
                  After(s, e, MSubmit(i, amount, ev, nonce)).book,
                  BookedAlone(Submitted(s, e, i, amount), e, s.book.claimCount + 1));
      } else {
        SameAgreements(s.book, Logged(Submitted(s, e, i, amount).book, i, ev.kind, e, nonce));
      }
    }
  }

  lemma FilingLeaves(s: State, e: Env, i: nat, amount: nat, ev: Evidence, nonce: nat)
    requires i in s.book.policies
    ensures var b := Submitted(s, e, i, amount).book;
            && b.agreements == s.book.agreements && b.agreementCount == s.book.agreementCount
            && (AgreementsNumbered(s.book) ==> AgreementsNumbered(b))
            && Logged(b, i, ev.kind, e, nonce).agreements == s.book.agreements
            && Logged(b, i, ev.kind, e, nonce).agreementCount == s.book.agreementCount
  {
  }

  lemma SameBooks(b: Book, b1: Book, b1': Book, b': Book, k: Booking)
    requires Books(b1, b1', k) && b1.agreements == b.agreements
    requires b'.agreements == b1'.agreements && b'.agreementCount == b1'.agreementCount
    ensures Books(b, b', k)
  {
  }

  /** Every message books exactly what its caller could tell beforehand. */
  lemma HandleBooks(s: State, e: Env, m: Message)
    requires AgreementsNumbered(s.book)
    ensures Books(s.book, After(s, e, m).book, Booked(s, e, m))
  {
    hide AgreementsNumbered, ProcessClaim, ProcessInBatch, SubmitClaim, RegisterReinsurance, Books, Booked, After;
    match m
    case MProcess(c, approved) => ReviewBooks(s, e, c, approved);
    case MProcessInBatch(c, approved) => ReviewBooks(s, e, c, approved);
    case MSubmit(i, amount, ev, nonce) => SubmitBooks(s, e, i, amount, ev, nonce);
    case _ => OthersBookNothing(s, e, m);
  }

  lemma OthersBookNothing(s: State, e: Env, m: Message)
    requires AgreementsNumbered(s.book) && !m.MSubmit? && !m.MProcess? && !m.MProcessInBatch?
    ensures Books(s.book, After(s, e, m).book, Booked(s, e, m))
  {
    hide Handle, Books, AgreementsNumbered;
    NothingBooked(s.book);
    if Handle(s, e, m).Ok? {
      if m.MReinsure? {
        HandleReinsures(s, e, m);
        ReinsureBooks(s, e, m.reinsurer, m.limit, m.retention, m.cededRate, m.coverages, m.duration);
      } else {
        OthersLeaveAgreements(s, e, m);
        SameAgreements(s.book, Handle(s, e, m).value.0.book);
      }
    }
  }

  lemma HandleReinsures(s: State, e: Env, m: Message)
    requires m.MReinsure?
    ensures Handle(s, e, m) == RegisterReinsurance(s, e, m.reinsurer, m.limit, m.retention, m.cededRate, m.coverages, m.duration)
  {
    hide RegisterReinsurance;
  }

  lemma SameAgreements(b: Book, b': Book)
    requires AgreementsNumbered(b) && b'.agreements == b.agreements && b'.agreementCount == b.agreementCount
    ensures Books(b, b', NO_BOOKING)
  {
  }

  /** The ledger of recoveries: what the messages of a run book. */
  function RecoveriesOf(cfg: Config, calls: seq<Call>): nat {
    if calls == [] then 0
    else
      var n := |calls| - 1;
      RecoveriesOf(cfg, calls[..n]) + Booked(Run(cfg, calls[..n]).s, calls[n].env, calls[n].message).amount
  }

  /** The agreements together hold exactly the recoveries of the run, those of unpaid batch
      approvals included and those of reverted reviews not. */
  lemma {:induction false} EveryRunBooksRecoveries(cfg: Config, calls: seq<Call>)
    ensures var b := Run(cfg, calls).s.book;
            AgreementsNumbered(b) && SumBy(b.agreements, RecoveredOf()) == RecoveriesOf(cfg, calls)
  {
    hide After, Booked, SumBy, AgreementsNumbered, Run;
    if calls == [] {
      NothingRecovered(cfg);
    } else {
      var n := |calls| - 1;
      EveryRunBooksRecoveries(cfg, calls[..n]);
      RunStep(cfg, calls);
      HandleBooks(Run(cfg, calls[..n]).s, calls[n].env, calls[n].message);
    }
  }

  lemma NothingRecovered(cfg: Config)
    ensures var b := Run(cfg, []).s.book;
            b.agreements == map[] && AgreementsNumbered(b) && SumBy(b.agreements, RecoveredOf()) == 0
  {
  }

  // ---------------------------------------------------------------------------------------
  // Limits
  // ---------------------------------------------------------------------------------------

  predicate WithinLimit(b: Book, g: nat)
    requires g in b.agreements
  {
    b.agreements[g].recovered <= b.agreements[g].limit
  }

  /** The booking is for more than its agreement has left. */
  predicate Overdraws(agreements: map<nat, Agreement>, k: Booking, g: nat) {
    g in agreements && On(k, g) > SatSub(agreements[g].limit, agreements[g].recovered)
  }

  /** A payout keeps all agreements within their limits if and only if the first one that
      contributes has its recovery left. */
  lemma PayoutKeepsLimits(agreements: map<nat, Agreement>, i: nat, count: nat, amount: nat, now: nat)
    requires forall g: nat | g in agreements :: agreements[g].recovered <= agreements[g].limit
    ensures var agreements', k := RecoverFrom(agreements, i, count, amount, now), FirstRecovery(agreements, i, count, amount, now);
            (forall g: nat | g in agreements' :: agreements'[g].recovered <= agreements'[g].limit)
            <==> !Overdraws(agreements, k, k.agreement)
  {
    hide RecoverFrom, FirstRecovery;
    RecoveryAdds(agreements, i, count, amount, now);
  }

  /** No message of the first `k` books more on agreement `g` than it has left. */
  ghost predicate NeverOverdraws(cfg: Config, calls: seq<Call>, k: nat, g: nat)
    requires k <= |calls|
  {
    forall j: nat | j < k :: !Draws(cfg, calls, j, g)
  }

  predicate Draws(cfg: Config, calls: seq<Call>, j: nat, g: nat)
    requires j < |calls|
  {
    var s := Run(cfg, calls[..j]).s;
    Overdraws(s.book.agreements, Booked(s, calls[j].env, calls[j].message), g)
  }

  lemma StepLimit(s: State, e: Env, m: Message, g: nat)
    requires AgreementsNumbered(s.book)
    ensures AgreementsNumbered(After(s, e, m).book)
    ensures g in s.book.agreements ==>
              && g in After(s, e, m).book.agreements
              && (WithinLimit(After(s, e, m).book, g)
                  <==> WithinLimit(s.book, g) && !Overdraws(s.book.agreements, Booked(s, e, m), g))
    ensures g !in s.book.agreements ==>
              && !Overdraws(s.book.agreements, Booked(s, e, m), g)
              && (g in After(s, e, m).book.agreements ==> WithinLimit(After(s, e, m).book, g))
  {
    hide AgreementsNumbered, Booked, After;
    HandleBooks(s, e, m);
  }

  lemma {:induction false} LimitUpTo(cfg: Config, calls: seq<Call>, k: nat, g: nat)
    requires k <= |calls|
    ensures var b := Run(cfg, calls[..k]).s.book;
            && AgreementsNumbered(b)
            && (g in b.agreements ==> (WithinLimit(b, g) <==> NeverOverdraws(cfg, calls, k, g)))
            && (g !in b.agreements ==> NeverOverdraws(cfg, calls, k, g))
    decreases k
  {
    hide Run, After, Booked, AgreementsNumbered, WithinLimit, Overdraws;
    if k == 0 {
      assert calls[..0] == [];
      NothingRecovered(cfg);
    } else {
      LimitUpTo(cfg, calls, k - 1, g);
      PrefixStep(cfg, calls, k - 1);
      StepLimit(Run(cfg, calls[..k - 1]).s, calls[k - 1].env, calls[k - 1].message, g);
      assert NeverOverdraws(cfg, calls, k, g) <==> NeverOverdraws(cfg, calls, k - 1, g) && !Draws(cfg, calls, k - 1, g);
    }
  }

  /** An agreement ends a run within its limit if and only if no message of the run booked more
      on it than was left. */
  lemma EveryRunStaysWithinLimits(cfg: Config, calls: seq<Call>, g: nat)
    requires g in Run(cfg, calls).s.book.agreements
    ensures WithinLimit(Run(cfg, calls).s.book, g) <==> NeverOverdraws(cfg, calls, |calls|, g)
  {
    hide Run, NeverOverdraws, WithinLimit;
    assert calls[..|calls|] == calls;
    LimitUpTo(cfg, calls, |calls|, g);
  }

  lemma {:induction false} FirstRecoveryIgnoresBooked(
      agreements: map<nat, Agreement>, agreements': map<nat, Agreement>, i: nat, count: nat, amount: nat, now: nat)
    requires agreements'.Keys == agreements.Keys
    requires forall g: nat | g in agreements :: agreements'[g] == agreements[g].(recovered := agreements'[g].recovered)
    ensures FirstRecovery(agreements', i, count, amount, now) == FirstRecovery(agreements, i, count, amount, now)
    decreases count + 1 - i
  {
    if i <= count {
      FirstRecoveryIgnoresBooked(agreements, agreements', i + 1, count, amount, now);
    }
  }

  /** What a review leaves alone. */
  ghost predicate ReviewLeaves(s: State, s': State, c: nat) {
    && s'.cfg == s.cfg && s'.book.agreementCount == s.book.agreementCount
    && s'.book.agreements.Keys == s.book.agreements.Keys
    && (forall d: nat | d in s.book.claims && d != c :: d in s'.book.claims && s'.book.claims[d] == s.book.claims[d])
    && s'.liq.pools.Keys == s.liq.pools.Keys
    && (forall p: nat | p in s.liq.pools :: s'.liq.pools[p].reinsuranceThreshold == s.liq.pools[p].reinsuranceThreshold)
  }

  lemma PayoutLeaves(s: State, c: nat, i: nat, amount: nat, now: nat)
    requires i in s.book.policies
    ensures ReviewLeaves(s, ExecutePayout(s, c, i, amount, now).0, c)
  {
    hide Recovered, PayOut, ReviewLeaves;
    NothingMoved(s, c);
    var p := s.book.policies[i].pool;
    if amount > 0 && p in s.liq.pools {
      RecoveryTouchesOnly(s, s.liq.pools[p], amount, now);
      RecoveredLeaves(s, s.liq.pools[p], amount, now, c);
      if s.liq.pools[p].availableCapital >= amount {
        PayOutLeaves(s, Recovered(s, s.liq.pools[p], amount, now), c, i, amount, now);
      }
    }
  }

  lemma NothingMoved(s: State, c: nat)
    ensures ReviewLeaves(s, s, c)
  {
  }

  lemma RecoveredLeaves(s: State, q: Pool, amount: nat, now: nat, c: nat)
    ensures ReviewLeaves(s, Recovered(s, q, amount, now), c)
  {
    hide Recovered;
    RecoveryWritesAgreements(s, q, amount, now);
    RecoveredKeys(s, q, amount, now);
  }

  lemma RecoveredKeys(s: State, q: Pool, amount: nat, now: nat)
    ensures Recovered(s, q, amount, now).book.agreements.Keys == s.book.agreements.Keys
  {
    hide RecoverFrom, FirstRecovery, SumBy;
    RecoveryAdds(s.book.agreements, 1, s.book.agreementCount, amount, now);
  }

  lemma PayOutLeaves(s: State, s1: State, c: nat, i: nat, amount: nat, now: nat)
    requires i in s1.book.policies && s1.book.policies[i].pool in s1.liq.pools && ReviewLeaves(s, s1, c)
    ensures ReviewLeaves(s, PayOut(s1, c, i, amount, now), c)
  {
  }

  lemma InnerLeaves(s: State, e: Env, c: nat)
    ensures ReviewLeaves(s, ProcessClaimInner(s, e, c, true).0, c)
  {
    hide ExecutePayout, PayoutOf, Approval;
    if ReviewFault(s.book, c, true).None? {
      var payout := PayoutOf(s.book, c);
      PayoutLeaves(SetClaim(s, c, Approval(s.book.claims[c], e, payout)), c, s.book.claims[c].policy, payout, e.now);
    }
  }

  lemma ReviewKeepsRecoveries(s: State, e: Env, c: nat, d: nat)
    requires AgreementsNumbered(s.book) && c != d && ReviewFault(s.book, d, true).None?
    ensures var s' := ProcessClaimInner(s, e, c, true).0;
            ReviewFault(s'.book, d, true).None? && RecoveredBy(s', d, e.now) == RecoveredBy(s, d, e.now)
  {
    hide ProcessClaimInner, FirstRecovery;
    InnerLeaves(s, e, c);
    InnerSteps(s, e, c, true);
    InnerBooks(s, e, c, true);
    var s' := ProcessClaimInner(s, e, c, true).0;
    FirstRecoveryIgnoresBooked(s.book.agreements, s'.book.agreements, 1, s.book.agreementCount, PayoutOf(s.book, d), e.now);
  }

  lemma BatchBooks(s: State, e: Env, c: nat, g: nat)
    requires AgreementsNumbered(s.book) && HasRole(s.cfg, e.caller, Assessor) && g in s.book.agreements
    ensures var s' := After(s, e, MProcessInBatch(c, true));
            && s' == ProcessClaimInner(s, e, c, true).0
            && AgreementsNumbered(s'.book) && g in s'.book.agreements && HasRole(s'.cfg, e.caller, Assessor)
            && s'.book.agreements[g].limit == s.book.agreements[g].limit
            && s'.book.agreements[g].recovered == s.book.agreements[g].recovered + On(RecoveredBy(s, c, e.now), g)
  {
    hide ProcessClaimInner, AgreementsNumbered, RecoveredBy;
    InnerBooks(s, e, c, true);
    InnerLeaves(s, e, c);
  }

  /** The limit of an agreement bounds each recovery, not their sum, since what was recovered
      before is not consulted: two approvals book both their recoveries, and pass what the
      agreement had left exactly when their sum does. Two that reach the limit always do. */
  lemma LimitIsPerPayout(s: State, e: Env, c1: nat, c2: nat, g: nat)
    requires AgreementsNumbered(s.book) && HasRole(s.cfg, e.caller, Assessor) && c1 != c2
    requires ReviewFault(s.book, c1, true).None? && ReviewFault(s.book, c2, true).None?
    requires g in s.book.agreements && WithinLimit(s.book, g)
    ensures var s' := After(After(s, e, MProcessInBatch(c1, true)), e, MProcessInBatch(c2, true));
            var first, second := On(RecoveredBy(s, c1, e.now), g), On(RecoveredBy(s, c2, e.now), g);
            var agreement := s.book.agreements[g];
            && g in s'.book.agreements && s'.book.agreements[g].recovered == agreement.recovered + first + second
            && (WithinLimit(s'.book, g) <==> first + second <= agreement.limit - agreement.recovered)
            && (first == second == agreement.limit > 0 ==> !WithinLimit(s'.book, g))
  {
    hide After, AgreementsNumbered, ProcessClaimInner, RecoveredBy;
    BatchBooks(s, e, c1, g);
    ReviewKeepsRecoveries(s, e, c1, c2);
    BatchBooks(After(s, e, MProcessInBatch(c1, true)), e, c2, g);
  }

  // ---------------------------------------------------------------------------------------
  // Approvals and payments
  // ---------------------------------------------------------------------------------------

  /** Claim `c` as its review leaves it: paid if and only if it pays something and is funded. */
  function Decision(s: State, e: Env, c: nat, approved: bool): Claim
    requires ReviewFault(s.book, c, approved).None?
  {
    if !approved then Rejection(s.book.claims[c], e)
    else
      Approval(s.book.claims[c], e, PayoutOf(s.book, c)).(
        status := if PayoutOf(s.book, c) > 0 && Funded(s, c) then Paid else Approved)
  }

  lemma InnerDecides(s: State, e: Env, c: nat, approved: bool)
    ensures var b := ProcessClaimInner(s, e, c, approved).0.book;
            && b.claimCount == s.book.claimCount
            && b.claims == if ReviewFault(s.book, c, approved).Some? then s.book.claims
                           else s.book.claims[c := Decision(s, e, c, approved)]
  {
    hide Recovered, PayClaim, PayoutOf;
    if approved && ReviewFault(s.book, c, approved).None? {
      var payout, p := PayoutOf(s.book, c), s.book.policies[s.book.claims[c].policy].pool;
      if p in s.liq.pools {
        var s1 := SetClaim(s, c, Approval(s.book.claims[c], e, payout));
        RecoveryWritesAgreements(s1, s.liq.pools[p], payout, e.now);
      }
    }
  }

  /** An approved claim is paid if and only if its payout is positive and in the pool. A claim
      for no more than its deductible stays approved and unpaid either way; one the pool cannot
      pay is undone in a review on its own and stays approved and unpaid in a batch. */
  lemma ApprovalIsPaid(s: State, e: Env, c: nat)
    requires HasRole(s.cfg, e.caller, Assessor) && ReviewFault(s.book, c, true).None?
    ensures var r, paid := ProcessInBatch(s, e, c, true), PayoutOf(s.book, c) > 0 && Funded(s, c);
            && r.Ok? && c in r.value.0.book.claims
            && r.value.0.book.claims[c].status == if paid then Paid else Approved
    ensures var r, payout := ProcessClaim(s, e, c, true), PayoutOf(s.book, c);
            && (r.Ok? <==> !s.cfg.paused && (payout == 0 || Funded(s, c)))
            && (r.Ok? ==>
                  && c in r.value.0.book.claims
                  && r.value.0.book.claims[c].status == if payout > 0 then Paid else Approved)
  {
    hide ProcessClaimInner, HasRole, PayoutOf;
    InnerDecides(s, e, c, true);
    ReviewOutcome(s, e, c);
  }

  function PaidAmount(): (nat, Claim) -> int {
    (c: nat, claim: Claim) => if claim.status == Paid then claim.payout else 0
  }

  function UnpaidAmount(): (nat, Claim) -> int {
    (c: nat, claim: Claim) => if claim.status == Approved then claim.payout else 0
  }

  /** What the approved claims amount to, paid or not. */
  ghost function Decided(b: Book): int {
    SumBy(b.claims, PaidAmount()) + SumBy(b.claims, UnpaidAmount())
  }

  ghost predicate ClaimsNumbered(b: Book) {
    forall c: nat | c in b.claims :: c <= b.claimCount
  }

  /** The claims decided grow by at least `amount`. */
  ghost predicate Grows(b: Book, b': Book, amount: nat) {
    ClaimsNumbered(b') && Decided(b') >= Decided(b) + amount
  }

  lemma {:induction false} RecoveryWithin(agreements: map<nat, Agreement>, i: nat, count: nat, amount: nat, now: nat)
    ensures FirstRecovery(agreements, i, count, amount, now).amount <= amount
    decreases count + 1 - i
  {
    if i <= count {
      RecoveryWithin(agreements, i + 1, count, amount, now);
    }
  }

  lemma InnerGrows(s: State, e: Env, c: nat, approved: bool)
    requires ClaimsNumbered(s.book)
    ensures Grows(s.book, ProcessClaimInner(s, e, c, approved).0.book, if approved then RecoveredBy(s, c, e.now).amount else 0)
  {
    hide ProcessClaimInner, FirstRecovery, PayoutOf, Funded;
    InnerDecides(s, e, c, approved);
    if ReviewFault(s.book, c, approved).None? {
      RecoveryWithin(s.book.agreements, 1, s.book.agreementCount, if approved then PayoutOf(s.book, c) else 0, e.now);
      SumInsert<nat, Claim>(s.book.claims, c, Decision(s, e, c, approved), PaidAmount());
      SumInsert<nat, Claim>(s.book.claims, c, Decision(s, e, c, approved), UnpaidAmount());
    }
  }

  lemma FilingGrows(s: State, e: Env, i: nat, amount: nat)
    requires ClaimsNumbered(s.book) && i in s.book.policies
    ensures Grows(s.book, Submitted(s, e, i, amount).book, 0)
  {
    var id, claim := s.book.claimCount + 1, Claim(i, e.caller, amount, Pending, e.now, None, 0, None);
    SumInsert<nat, Claim>(s.book.claims, id, claim, PaidAmount());
    SumInsert<nat, Claim>(s.book.claims, id, claim, UnpaidAmount());
  }

  lemma LoggedGrows(b: Book, filed: Book, i: nat, kind: string, e: Env, nonce: nat)
    requires Grows(b, filed, 0)
    ensures Grows(b, Logged(filed, i, kind, e, nonce), 0)
  {
  }

  lemma ReviewGrows(s: State, e: Env, c: nat, approved: bool)
    requires ClaimsNumbered(s.book)
    ensures Grows(s.book, After(s, e, MProcess(c, approved)).book, Booked(s, e, MProcess(c, approved)).amount)
    ensures Grows(s.book, After(s, e, MProcessInBatch(c, approved)).book, Booked(s, e, MProcessInBatch(c, approved)).amount)
  {
    hide ProcessClaimInner, HasRole, ClaimsNumbered, Decided, FirstRecovery, PayoutOf;
    InnerGrows(s, e, c, approved);
    ReviewOutcome(s, e, c);
  }

  lemma SubmitGrows(s: State, e: Env, i: nat, amount: nat, ev: Evidence, nonce: nat)
    requires ClaimsNumbered(s.book)
    ensures Grows(s.book, After(s, e, MSubmit(i, amount, ev, nonce)).book, Booked(s, e, MSubmit(i, amount, ev, nonce)).amount)
  {
    hide ProcessClaim, SubmitFault, BookedAlone, ClaimsNumbered, FileClaim, Decided;
    if SubmitFault(s, e, i, amount, ev, nonce).None? {
      SubmitFinds(s, e, i, amount, ev, nonce);
      FilingGrows(s, e, i, amount);
      if ReviewedAtOnce(s, i) {
        ReviewGrows(Submitted(s, e, i, amount), e, s.book.claimCount + 1, true);
      } else {
        LoggedGrows(s.book, Submitted(s, e, i, amount).book, i, ev.kind, e, nonce);
      }
    }
  }

  lemma OthersLeaveClaims(s: State, e: Env, m: Message)
    requires !m.MSubmit? && !m.MProcess? && !m.MProcessInBatch?
    ensures After(s, e, m).book.claims == s.book.claims && After(s, e, m).book.claimCount == s.book.claimCount
  {
    hide Deposit, Withdraw, ClaimRewards, Reinvest, ClaimVested, CreatePool, ConfigureVesting, ExpireFrom, TakePremium,
         ApplicationFault, Fee, Deductible, EndIn, Accrued, HasRole, SubmitClaim, ProcessClaim, ProcessInBatch, Without;
  }

  lemma HandleGrows(s: State, e: Env, m: Message)
    requires ClaimsNumbered(s.book)
    ensures Grows(s.book, After(s, e, m).book, Booked(s, e, m).amount)
  {
    hide ClaimsNumbered, Decided, After, BookedAlone, RecoveredBy, SubmitFault;
    match m
    case MProcess(c, approved) => ReviewGrows(s, e, c, approved);
    case MProcessInBatch(c, approved) => ReviewGrows(s, e, c, approved);
    case MSubmit(i, amount, ev, nonce) => SubmitGrows(s, e, i, amount, ev, nonce);
    case _ => OthersGrow(s, e, m);
  }

  lemma OthersGrow(s: State, e: Env, m: Message)
    requires ClaimsNumbered(s.book) && !m.MSubmit? && !m.MProcess? && !m.MProcessInBatch?
    ensures Grows(s.book, After(s, e, m).book, Booked(s, e, m).amount)
  {
    hide After;
    OthersLeaveClaims(s, e, m);
  }

  lemma {:induction false} EveryRunGrows(cfg: Config, calls: seq<Call>)
    ensures ClaimsNumbered(Run(cfg, calls).s.book) && RecoveriesOf(cfg, calls) <= Decided(Run(cfg, calls).s.book)
  {
    hide Run, After, Booked, ClaimsNumbered, Decided;
    if calls == [] {
      NothingDecided(cfg);
    } else {
      var n := |calls| - 1;
      EveryRunGrows(cfg, calls[..n]);
      RunStep(cfg, calls);
      HandleGrows(Run(cfg, calls[..n]).s, calls[n].env, calls[n].message);
    }
  }

  lemma NothingDecided(cfg: Config)
    ensures ClaimsNumbered(Run(cfg, []).s.book) && Decided(Run(cfg, []).s.book) == 0
  {
  }

  /** In every run all recoveries together stay within the claims paid plus the approvals that
      were not. */
  lemma EveryRunBoundsRecoveries(cfg: Config, calls: seq<Call>)
    ensures var b := Run(cfg, calls).s.book;
            SumBy(b.agreements, RecoveredOf()) <= SumBy(b.claims, PaidAmount()) + SumBy(b.claims, UnpaidAmount())
  {
    hide Run, RecoveriesOf;
    EveryRunBooksRecoveries(cfg, calls);
    EveryRunGrows(cfg, calls);
  }

  /** When the pool is short, a review on its own is undone while the same review in a batch
      keeps the approval and the recovery, and pays nothing. */
  lemma FailedPayouts(s: State, e: Env, c: nat)
    requires !s.cfg.paused && HasRole(s.cfg, e.caller, Assessor) && ReviewFault(s.book, c, true).None?
    requires var p := s.book.policies[s.book.claims[c].policy].pool;
             p in s.liq.pools && s.liq.pools[p].availableCapital < PayoutOf(s.book, c)
    ensures ProcessClaim(s, e, c, true) == Err(InsufficientPoolFunds)
    ensures var r, payout := ProcessInBatch(s, e, c, true), PayoutOf(s.book, c);
            && r.Ok? && r.value.0.liq == s.liq && r.value.0.book.policies == s.book.policies
            && c in r.value.0.book.claims && r.value.0.book.claims[c].status == Approved
            && r.value.0.book.agreements ==
               if payout > s.liq.pools[s.book.policies[s.book.claims[c].policy].pool].reinsuranceThreshold
               then RecoverFrom(s.book.agreements, 1, s.book.agreementCount, payout, e.now) else s.book.agreements
  {
    hide RecoverFrom, PayoutOf;
  }
}
