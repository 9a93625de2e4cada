/** What every run of the escrow keeps: approvals are counted one per signer, money is neither
    lost nor paid twice, and exactly the deals with enough distinct signers can be released. */
module EscrowTheorems {
  import opened Common
  import opened Escrow

  /** Deposits, payments and the number of payments of each escrow, and the totals. */
  datatype Ledger = Ledger(paidIn: map<nat, int>, paidOut: map<nat, int>, payments: map<nat, nat>, totalIn: int, totalOut: int)

  const NO_LEDGER: Ledger := Ledger(map[], map[], map[], 0, 0)

  function AmountAt(m: map<nat, int>, id: nat): int {
    if id in m then m[id] else 0
  }

  function Post(g: Ledger, r: Receipt): Ledger {
    match r
    case Funds(id, amount) => g.(paidIn := g.paidIn[id := AmountAt(g.paidIn, id) + amount], totalIn := g.totalIn + amount)
    case Payment(id, amount) =>
      g.(paidOut := g.paidOut[id := AmountAt(g.paidOut, id) + amount],
         payments := g.payments[id := CountAt(g.payments, id) + 1],
         totalOut := g.totalOut + amount)
    case _ => g
  }

  // ---------------------------------------------------------------------------------------
  // Approvals
  // ---------------------------------------------------------------------------------------

  function Members(list: seq<Address>): set<Address> {
    set a | a in list
  }

  /** Everybody among the configured signers who approved. */
  ghost function Signers(a: Approvals, id: nat, approval: Approval, config: MultiSig): set<Address> {
    set x | x in config.signers && (id, approval, x) in a.signatures
  }

  ghost predicate ApprovalsSound(a: Approvals, configs: map<nat, MultiSig>) {
    && (forall k: (nat, Approval, Address) | k in a.signatures :: k.0 in configs && k.2 in configs[k.0].signers)
    && (forall id: nat, t: Approval | id in configs :: CountAt(a.counts, (id, t)) == |Signers(a, id, t, configs[id])|)
    && (forall k: (nat, Approval) | k in a.counts :: k.0 in configs)
  }

  lemma SignSound(a: Approvals, configs: map<nat, MultiSig>, id: nat, approval: Approval, signer: Address)
    requires ApprovalsSound(a, configs) && id in configs && signer in configs[id].signers
    requires (id, approval, signer) !in a.signatures
    ensures ApprovalsSound(Sign(a, id, approval, signer), configs)
  {
    var a' := Sign(a, id, approval, signer);
    forall j: nat, t: Approval | j in configs ensures CountAt(a'.counts, (j, t)) == |Signers(a', j, t, configs[j])| {
      assert CountAt(a.counts, (j, t)) == |Signers(a, j, t, configs[j])|;
      if (j, t) == (id, approval) {
        assert Signers(a', j, t, configs[j]) == Signers(a, j, t, configs[j]) + {signer};
      } else {
        assert Signers(a', j, t, configs[j]) == Signers(a, j, t, configs[j]);
      }
    }
  }

  lemma OpenApprovals(a: Approvals, configs: map<nat, MultiSig>, id: nat, config: MultiSig)
    requires ApprovalsSound(a, configs) && id !in configs
    ensures ApprovalsSound(a, configs[id := config])
  {
    forall t: Approval ensures CountAt(a.counts, (id, t)) == |Signers(a, id, t, config)| {
      assert (id, t) in a.counts ==> (id, t).0 in configs;
      forall x ensures x !in Signers(a, id, t, config) {
        assert (id, t, x) in a.signatures ==> (id, t, x).0 in configs;
      }
      assert Signers(a, id, t, config) == {};
    }
  }

  // ---------------------------------------------------------------------------------------
  // Deals
  // ---------------------------------------------------------------------------------------

  /** A deal's status says what it holds, and its ledger says the rest was paid out once. */
  ghost predicate DealSound(deal: Deal, config: MultiSig, paidIn: int, paidOut: int, payments: nat) {
    && deal.amount > 0
    && (deal.status == Created ==> deal.deposited == 0)
    && (deal.status == Funded ==> 0 < deal.deposited < deal.amount)
    && (deal.status == Active ==> deal.deposited == deal.amount)
    && (deal.status == Released ==> deal.deposited == 0)
    && (deal.status == Created || deal.status == Funded || deal.status == Active || deal.status == Released)
    && paidIn == deal.deposited + paidOut
    && payments == Bit(deal.status == Released)
    && paidOut == (if deal.status == Released then deal.amount else 0)
    && config.signers == deal.participants && 0 < config.required <= |config.signers|
    && ZERO_ADDRESS !in config.signers
  }

  ghost predicate DealsSound(d: Deals, g: Ledger) {
    && d.configs.Keys == d.escrows.Keys
    && (forall id: nat :: id in d.escrows <==> 1 <= id <= d.count)
    && (forall id: nat | id in d.escrows ::
          DealSound(d.escrows[id], d.configs[id], AmountAt(g.paidIn, id), AmountAt(g.paidOut, id), CountAt(g.payments, id)))
    && (forall id: nat | id !in d.escrows :: id !in g.paidIn && id !in g.paidOut && id !in g.payments)
  }

  function Held(): (nat, Deal) -> int {
    (id: nat, deal: Deal) => deal.deposited
  }

  ghost predicate Balanced(d: Deals, g: Ledger) {
    SumBy(d.escrows, Held()) + g.totalOut == g.totalIn
  }

  /** A released escrow had its required number of distinct approvals. */
  ghost predicate Authorized(d: Deals, a: Approvals) {
    forall id: nat | id in d.escrows && id in d.configs && d.escrows[id].status == Released ::
      |Signers(a, id, ForRelease, d.configs[id])| >= d.configs[id].required
  }

  lemma NewDealSound(deal: Deal, config: MultiSig)
    requires deal.amount > 0 && deal.deposited == 0 && deal.status == Created && config.signers == deal.participants
    requires 0 < config.required <= |config.signers| && ZERO_ADDRESS !in config.signers
    ensures DealSound(deal, config, 0, 0, 0)
  {
  }

  lemma NextFree(d: Deals, g: Ledger)
    requires DealsSound(d, g)
    ensures d.count + 1 !in d.escrows && d.count + 1 !in d.configs
  {
  }

  lemma OpenAuthorized(d: Deals, a: Approvals, t: Terms, now: nat)
    requires Authorized(d, a)
    ensures Authorized(Open(d, t, now), a)
  {
    var d' := Open(d, t, now);
    forall id: nat | id in d'.escrows && id in d'.configs && d'.escrows[id].status == Released
      ensures |Signers(a, id, ForRelease, d'.configs[id])| >= d'.configs[id].required
    {
      assert id in d.escrows && id != d.count + 1;
    }
  }

  lemma OpenDeals(d: Deals, g: Ledger, t: Terms, now: nat)
    requires DealsSound(d, g)
    requires t.amount > 0 && 0 < t.required <= |t.participants| && ZERO_ADDRESS !in t.participants
    ensures DealsSound(Open(d, t, now), g)
  {
    hide DealSound;
    var d', id := Open(d, t, now), d.count + 1;
    NewDealSound(d'.escrows[id], d'.configs[id]);
    forall j: nat | j in d'.escrows
      ensures DealSound(d'.escrows[j], d'.configs[j], AmountAt(g.paidIn, j), AmountAt(g.paidOut, j), CountAt(g.payments, j))
    {
      if j != id {
        assert DealSound(d.escrows[j], d.configs[j], AmountAt(g.paidIn, j), AmountAt(g.paidOut, j), CountAt(g.payments, j));
      }
    }
  }

  lemma OpenBalanced(d: Deals, g: Ledger, t: Terms, now: nat)
    requires Balanced(d, g) && d.count + 1 !in d.escrows
    ensures Balanced(Open(d, t, now), g)
  {
    SumInsert<nat, Deal>(d.escrows, d.count + 1, Open(d, t, now).escrows[d.count + 1], Held());
  }

  /** Rewriting one deal with its receipt posted. */
  lemma PutDeals(d: Deals, g: Ledger, id: nat, deal: Deal, r: Receipt)
    requires DealsSound(d, g) && id in d.escrows
    requires r == Funds(id, deal.deposited - d.escrows[id].deposited)
             || r == Payment(id, d.escrows[id].deposited - deal.deposited)
    requires var g' := Post(g, r);
             DealSound(deal, d.configs[id], AmountAt(g'.paidIn, id), AmountAt(g'.paidOut, id), CountAt(g'.payments, id))
    ensures DealsSound(d.(escrows := d.escrows[id := deal]), Post(g, r))
  {
    hide DealSound;
    var d', g' := d.(escrows := d.escrows[id := deal]), Post(g, r);
    forall j: nat | j in d'.escrows
      ensures DealSound(d'.escrows[j], d'.configs[j], AmountAt(g'.paidIn, j), AmountAt(g'.paidOut, j), CountAt(g'.payments, j))
    {
      if j != id {
        assert DealSound(d.escrows[j], d.configs[j], AmountAt(g.paidIn, j), AmountAt(g.paidOut, j), CountAt(g.payments, j));
      }
    }
  }

  lemma PutBalanced(d: Deals, g: Ledger, id: nat, deal: Deal, r: Receipt)
    requires Balanced(d, g) && id in d.escrows
    requires r == Funds(id, deal.deposited - d.escrows[id].deposited)
             || r == Payment(id, d.escrows[id].deposited - deal.deposited)
    ensures Balanced(d.(escrows := d.escrows[id := deal]), Post(g, r))
  {
    SumInsert<nat, Deal>(d.escrows, id, deal, Held());
  }

  // ---------------------------------------------------------------------------------------
  // Every run
  // ---------------------------------------------------------------------------------------

  datatype Call = Call(env: Env, message: Message)

  datatype World = World(s: State, g: Ledger)

  function Exec(w: World, c: Call): World {
    match Handle(w.s, c.env, c.message)
    case Ok((s, r)) => World(s, Post(w.g, r))
    case Err(_) => w
  }

  function Run(w: World, calls: seq<Call>): World {
    if calls == [] then w else Exec(Run(w, calls[..|calls| - 1]), calls[|calls| - 1])
  }

  ghost predicate Good(w: World) {
    && w.s.admin != ZERO_ADDRESS
    && DealsSound(w.s.deals, w.g)
    && Balanced(w.s.deals, w.g)
    && ApprovalsSound(w.s.approvals, w.s.deals.configs)
    && Authorized(w.s.deals, w.s.approvals)
  }

  lemma CreateGood(w: World, e: Env, t: Terms)
    requires Good(w)
    ensures Good(Exec(w, Call(e, MCreate(t))))
  {
    hide DealsSound, Balanced, ApprovalsSound, Authorized;
    if CreateFault(w.s, e, t).None? {
      NextFree(w.s.deals, w.g);
      OpenDeals(w.s.deals, w.g, t, e.now);
      OpenAuthorized(w.s.deals, w.s.approvals, t, e.now);
      OpenBalanced(w.s.deals, w.g, t, e.now);
      OpenApprovals(w.s.approvals, w.s.deals.configs, w.s.deals.count + 1, MultiSig(t.required, t.participants));
    }
  }

  lemma DealKnown(w: World, id: nat)
    requires Good(w) && id in w.s.deals.escrows
    ensures id in w.s.deals.configs
    ensures DealSound(w.s.deals.escrows[id], w.s.deals.configs[id], AmountAt(w.g.paidIn, id), AmountAt(w.g.paidOut, id),
                      CountAt(w.g.payments, id))
  {
  }

  lemma AuthorizedPut(d: Deals, a: Approvals, id: nat, deal: Deal)
    requires Authorized(d, a) && id in d.escrows && id in d.configs
    requires deal.status == Released ==> |Signers(a, id, ForRelease, d.configs[id])| >= d.configs[id].required
    ensures Authorized(d.(escrows := d.escrows[id := deal]), a)
  {
  }

  lemma DepositGood(w: World, e: Env, id: nat, amount: int)
    requires Good(w)
    ensures Good(Exec(w, Call(e, MDeposit(id, amount))))
  {
    hide DealsSound, Balanced, ApprovalsSound, Authorized;
    if DepositFunds(w.s, id, amount).Ok? {
      DealKnown(w, id);
      var deal := Fund(w.s.deals.escrows[id], amount);
      PutDeals(w.s.deals, w.g, id, deal, Funds(id, amount));
      PutBalanced(w.s.deals, w.g, id, deal, Funds(id, amount));
      AuthorizedPut(w.s.deals, w.s.approvals, id, deal);
    }
  }

  lemma ReleaseGood(w: World, e: Env, id: nat)
    requires Good(w)
    ensures Good(Exec(w, Call(e, MRelease(id))))
  {
    hide DealsSound, Balanced, ApprovalsSound, Authorized;
    if ReleaseFunds(w.s, e, id).Ok? {
      DealKnown(w, id);
      var deal := w.s.deals.escrows[id].(status := Released, deposited := 0);
      PutDeals(w.s.deals, w.g, id, deal, Payment(id, w.s.deals.escrows[id].deposited));
      PutBalanced(w.s.deals, w.g, id, deal, Payment(id, w.s.deals.escrows[id].deposited));
      CountMeans(w, id, ForRelease);
      AuthorizedPut(w.s.deals, w.s.approvals, id, deal);
    }
  }

  lemma CountMeans(w: World, id: nat, t: Approval)
    requires Good(w) && id in w.s.deals.configs
    ensures CountAt(w.s.approvals.counts, (id, t)) == |Signers(w.s.approvals, id, t, w.s.deals.configs[id])|
  {
  }

  lemma SignGood(w: World, e: Env, id: nat, approval: Approval)
    requires Good(w)
    ensures Good(Exec(w, Call(e, MSign(id, approval))))
  {
    hide DealsSound, Balanced, ApprovalsSound;
    if SignApproval(w.s, e, id, approval).Ok? {
      SignSound(w.s.approvals, w.s.deals.configs, id, approval, e.caller);
      SignAuthorized(w.s.deals, w.s.approvals, id, approval, e.caller);
    }
  }

  lemma SignAuthorized(d: Deals, a: Approvals, id: nat, approval: Approval, signer: Address)
    requires Authorized(d, a)
    ensures Authorized(d, Sign(a, id, approval, signer))
  {
    forall j: nat | j in d.escrows && j in d.configs && d.escrows[j].status == Released
      ensures |Signers(Sign(a, id, approval, signer), j, ForRelease, d.configs[j])| >= d.configs[j].required
    {
      SubsetSmaller(Signers(a, j, ForRelease, d.configs[j]),
                    Signers(Sign(a, id, approval, signer), j, ForRelease, d.configs[j]));
    }
  }

  lemma SubsetSmaller<T>(x: set<T>, y: set<T>)
    requires x <= y
    ensures |x| <= |y|
  {
    assert y == x + (y - x);
  }

  lemma PauseGood(w: World, e: Env, paused: bool)
    requires Good(w)
    ensures Good(Exec(w, Call(e, MPause(paused))))
  {
    hide DealsSound, Balanced, ApprovalsSound, Authorized;
  }

  lemma ExecGood(w: World, c: Call)
    requires Good(w)
    ensures Good(Exec(w, c))
  {
    hide Good, Exec;
    match c.message
    case MPause(paused) => PauseGood(w, c.env, paused);
    case MCreate(terms) => CreateGood(w, c.env, terms);
    case MDeposit(id, amount) => DepositGood(w, c.env, id, amount);
    case MRelease(id) => ReleaseGood(w, c.env, id);
    case MSign(id, approval) => SignGood(w, c.env, id, approval);
  }

  lemma {:induction false} RunGood(w: World, calls: seq<Call>)
    requires Good(w)
    ensures Good(Run(w, calls))
  {
    hide Good, Exec;
    if calls != [] {
      RunGood(w, calls[..|calls| - 1]);
      ExecGood(Run(w, calls[..|calls| - 1]), calls[|calls| - 1]);
    }
  }

  function Start(admin: Address): World
    requires admin != ZERO_ADDRESS
  {
    World(Init(admin).value, NO_LEDGER)
  }

  lemma StartGood(admin: Address)
    requires admin != ZERO_ADDRESS
    ensures Good(Start(admin))
  {
  }

  /** The stored count of approvals is the number of distinct signers on record, every one of
      them configured for the escrow. */
  lemma EveryRunCountsDistinctSigners(admin: Address, calls: seq<Call>, id: nat, t: Approval)
    requires admin != ZERO_ADDRESS && id in Run(Start(admin), calls).s.deals.configs
    ensures var s := Run(Start(admin), calls).s;
            && CountAt(s.approvals.counts, (id, t)) == |Signers(s.approvals, id, t, s.deals.configs[id])|
            && id in s.deals.escrows
            && (forall a: Address | (id, t, a) in s.approvals.signatures ::
                  a in Signers(s.approvals, id, t, s.deals.configs[id]) && a in s.deals.escrows[id].participants)
  {
    hide Run, Start, Balanced, Authorized;
    StartGood(admin);
    RunGood(Start(admin), calls);
    var w := Run(Start(admin), calls);
    DealKnown(w, id);
    forall a: Address | (id, t, a) in w.s.approvals.signatures
      ensures a in w.s.deals.configs[id].signers
    {
      var k := (id, t, a);
      assert k.2 in w.s.deals.configs[k.0].signers;
    }
  }

  /** An escrow pays out at most once, then exactly the agreed amount and with the required
      number of distinct approvals; what came in is still held or was paid out. */
  lemma EveryRunConservesDeposits(admin: Address, calls: seq<Call>, id: nat)
    requires admin != ZERO_ADDRESS && id in Run(Start(admin), calls).s.deals.escrows
    ensures var w := Run(Start(admin), calls);
            var deal := w.s.deals.escrows[id];
            && AmountAt(w.g.paidIn, id) == deal.deposited + AmountAt(w.g.paidOut, id)
            && CountAt(w.g.payments, id) == Bit(deal.status == Released)
            && AmountAt(w.g.paidOut, id) == (if deal.status == Released then deal.amount else 0)
            && 0 <= deal.deposited <= deal.amount
            && (deal.status == Released ==>
                  id in w.s.deals.configs
                  && |Signers(w.s.approvals, id, ForRelease, w.s.deals.configs[id])| >= w.s.deals.configs[id].required)
            && w.g.totalIn == SumBy(w.s.deals.escrows, Held()) + w.g.totalOut
  {
    hide Run, Start, DealsSound, ApprovalsSound;
    StartGood(admin);
    RunGood(Start(admin), calls);
    DealKnown(Run(Start(admin), calls), id);
  }

  // ---------------------------------------------------------------------------------------
  // Which escrows can be released
  // ---------------------------------------------------------------------------------------

  ghost predicate SameTerms(w: World, w': World, id: nat) {
    && id in w.s.deals.escrows && id in w'.s.deals.escrows && id in w.s.deals.configs && id in w'.s.deals.configs
    && w'.s.deals.configs[id] == w.s.deals.configs[id] && w'.s.admin == w.s.admin
    && w'.s.deals.escrows[id].amount == w.s.deals.escrows[id].amount
    && w'.s.deals.escrows[id].timeLock == w.s.deals.escrows[id].timeLock
  }

  lemma ExecSameTerms(w: World, c: Call, id: nat)
    requires Good(w) && id in w.s.deals.escrows
    ensures SameTerms(w, Exec(w, c), id)
  {
    hide Balanced, ApprovalsSound, Authorized, DealSound;
  }

  lemma {:induction false} RunSameTerms(w: World, calls: seq<Call>, id: nat)
    requires Good(w) && id in w.s.deals.escrows
    ensures SameTerms(w, Run(w, calls), id)
  {
    hide Exec, Good;
    if calls == [] {
      DealKnown(w, id);
    } else {
      var before := calls[..|calls| - 1];
      RunSameTerms(w, before, id);
      RunGood(w, before);
      ExecSameTerms(Run(w, before), calls[|calls| - 1], id);
    }
  }

  ghost predicate ReleasedIn(w: World, id: nat) {
    id in w.s.deals.escrows && w.s.deals.escrows[id].status == Released
  }

  /** A clock that starts no earlier than `now` and does not go back. */
  ghost predicate Forward(calls: seq<Call>, now: nat) {
    && (forall i | 0 <= i < |calls| :: now <= calls[i].env.now)
    && (forall i, j | 0 <= i <= j < |calls| :: calls[i].env.now <= calls[j].env.now)
  }

  /** Some continuation from time `now` on releases the escrow. */
  ghost predicate CanBeReleased(w: World, id: nat, now: nat) {
    exists calls: seq<Call> :: Forward(calls, now) && ReleasedIn(Run(w, calls), id)
  }

  /** Nobody outside the configured signers counts, so too few distinct ones block a release. */
  lemma ReleaseNeedsSigners(w: World, calls: seq<Call>, id: nat)
    requires Good(w) && id in w.s.deals.escrows && ReleasedIn(Run(w, calls), id)
    ensures id in w.s.deals.configs && w.s.deals.configs[id].required <= |Members(w.s.deals.configs[id].signers)|
  {
    hide Run, DealsSound, Balanced, ApprovalsSound;
    RunSameTerms(w, calls, id);
    RunGood(w, calls);
    var s := Run(w, calls).s;
    SubsetSmaller(Signers(s.approvals, id, ForRelease, s.deals.configs[id]), Members(s.deals.configs[id].signers));
  }

  lemma {:induction false} RunAppend(w: World, x: seq<Call>, y: seq<Call>)
    ensures Run(w, x + y) == Run(Run(w, x), y)
    decreases |y|
  {
    hide Exec;
    if y == [] {
      assert x + y == x;
    } else {
      assert (x + y)[..|x + y| - 1] == x + y[..|y| - 1];
      RunAppend(w, x, y[..|y| - 1]);
    }
  }

  lemma RunOne(w: World, c: Call)
    ensures Run(w, [c]) == Exec(w, c)
  {
    hide Exec;
    assert [c][..0] == [];
    assert Run(w, []) == w;
  }

  /** Every signer in turn approves the release; a repeated approval is refused and harmless. */
  function Approve(id: nat, signers: seq<Address>, now: nat): (calls: seq<Call>)
    ensures forall i | 0 <= i < |calls| :: calls[i].env.now == now
  {
    if signers == [] then []
    else Approve(id, signers[..|signers| - 1], now) + [Call(Env(signers[|signers| - 1], now), MSign(id, ForRelease))]
  }

  ghost predicate ReadyToSign(w: World, id: nat) {
    && Good(w) && id in w.s.deals.escrows && id in w.s.deals.configs && !w.s.paused
    && w.s.deals.escrows[id].status == Active
  }

  lemma SignOnce(w: World, id: nat, a: Address, now: nat)
    requires ReadyToSign(w, id) && a in w.s.deals.configs[id].signers
    ensures var w' := Exec(w, Call(Env(a, now), MSign(id, ForRelease)));
            && ReadyToSign(w', id) && SameTerms(w, w', id)
            && (id, ForRelease, a) in w'.s.approvals.signatures
            && w.s.approvals.signatures <= w'.s.approvals.signatures
  {
    hide DealsSound, Balanced, ApprovalsSound, Authorized;
    DealKnown(w, id);
    IdPositive(w, id);
    SignGood(w, Env(a, now), id, ForRelease);
  }

  lemma IdPositive(w: World, id: nat)
    requires Good(w) && id in w.s.deals.escrows
    ensures id > 0
  {
  }

  lemma {:induction false} ApproveSigns(w: World, id: nat, signers: seq<Address>, now: nat)
    requires ReadyToSign(w, id) && (forall a | a in signers :: a in w.s.deals.configs[id].signers)
    ensures var w' := Run(w, Approve(id, signers, now));
            && ReadyToSign(w', id) && SameTerms(w, w', id)
            && (forall a | a in signers :: (id, ForRelease, a) in w'.s.approvals.signatures)
  {
    hide Good, Exec;
    if signers != [] {
      var before, a := signers[..|signers| - 1], signers[|signers| - 1];
      ApproveSigns(w, id, before, now);
      var calls := Approve(id, signers, now);
      assert calls[..|calls| - 1] == Approve(id, before, now);
      SignOnce(Run(w, Approve(id, before, now)), id, a, now);
    }
  }

  /** The first moment from `now` on at which the time lock is over. */
  function Deadline(deal: Deal, now: nat): nat {
    if deal.timeLock.Some? && deal.timeLock.value > now then deal.timeLock.value else now
  }

  /** Once everybody signed, the release goes through at the end of the time lock. */
  lemma SignedReleases(w: World, id: nat, now: nat)
    requires ReadyToSign(w, id)
    requires w.s.deals.configs[id].required <= |Members(w.s.deals.configs[id].signers)|
    requires forall a | a in w.s.deals.configs[id].signers :: (id, ForRelease, a) in w.s.approvals.signatures
    ensures ReleasedIn(Exec(w, Call(Env(0, Deadline(w.s.deals.escrows[id], now)), MRelease(id))), id)
  {
    hide DealsSound, Balanced, ApprovalsSound, Authorized;
    IdPositive(w, id);
    CountMeans(w, id, ForRelease);
    assert Signers(w.s.approvals, id, ForRelease, w.s.deals.configs[id]) == Members(w.s.deals.configs[id].signers);
  }

  lemma UnpauseReadies(w: World, id: nat, now: nat)
    requires Good(w) && id in w.s.deals.escrows
    ensures var w' := Exec(w, Call(Env(w.s.admin, now), MPause(false)));
            && Good(w') && !w'.s.paused && w'.s.deals == w.s.deals
  {
    hide DealsSound, Balanced, ApprovalsSound, Authorized;
  }

  /** Depositing what is missing makes an unreleased escrow active. */
  lemma TopUpActivates(w: World, id: nat, now: nat)
    requires Good(w) && !w.s.paused && id in w.s.deals.escrows && w.s.deals.escrows[id].status != Released
    ensures var deal := w.s.deals.escrows[id];
            var w' := Exec(w, Call(Env(0, now), MDeposit(id, deal.amount - deal.deposited)));
            && ReadyToSign(w', id) && SameTerms(w, w', id)
  {
    hide DealsSound, Balanced, ApprovalsSound, Authorized;
    DealKnown(w, id);
    IdPositive(w, id);
    DepositGood(w, Env(0, now), id, w.s.deals.escrows[id].amount - w.s.deals.escrows[id].deposited);
    DealKnown(Exec(w, Call(Env(0, now), MDeposit(id, w.s.deals.escrows[id].amount - w.s.deals.escrows[id].deposited))), id);
  }

  /** A plan that releases an escrow with enough distinct signers from any reachable state and
      any moment on. */
  lemma SignersSuffice(w: World, id: nat, now: nat)
    requires Good(w) && id in w.s.deals.escrows && w.s.deals.escrows[id].status != Released
    requires id in w.s.deals.configs && w.s.deals.configs[id].required <= |Members(w.s.deals.configs[id].signers)|
    ensures CanBeReleased(w, id, now)
  {
    hide Run, Exec, Good, Members, ReleasedIn;
    var deal, signers := w.s.deals.escrows[id], w.s.deals.configs[id].signers;
    var unpause := Call(Env(w.s.admin, now), MPause(false));
    var topUp := Call(Env(0, now), MDeposit(id, deal.amount - deal.deposited));
    var release := Call(Env(0, Deadline(deal, now)), MRelease(id));
    var w1 := Exec(w, unpause);
    UnpauseReadies(w, id, now);
    var w2 := Exec(w1, topUp);
    TopUpActivates(w1, id, now);
    ApproveSigns(w2, id, signers, now);
    var w3 := Run(w2, Approve(id, signers, now));
    SignedReleases(w3, id, now);
    RunOne(w, unpause);
    RunOne(w1, topUp);
    RunAppend(w, [unpause], [topUp]);
    RunAppend(w, [unpause] + [topUp], Approve(id, signers, now));
    RunOne(w3, release);
    RunAppend(w, [unpause] + [topUp] + Approve(id, signers, now), [release]);
    var plan := [unpause] + [topUp] + Approve(id, signers, now) + [release];
    assert Forward(plan, now) && ReleasedIn(Run(w, plan), id);
  }

  /** In every reachable state and from any moment on, an escrow that has not been released
      still can be exactly when its signer list holds the required number of different
      accounts. Creation checks only the length of the list, so repeated signers can lock a
      deal for good. */
  lemma ReleaseIsReachable(admin: Address, calls: seq<Call>, id: nat, now: nat)
    requires admin != ZERO_ADDRESS && ReachedDeal(Run(Start(admin), calls), id)
    ensures var w := Run(Start(admin), calls);
            CanBeReleased(w, id, now) <==> w.s.deals.configs[id].required <= |Members(w.s.deals.configs[id].signers)|
  {
    hide Run, Start, Good, Members;
    StartGood(admin);
    RunGood(Start(admin), calls);
    var w := Run(Start(admin), calls);
    if CanBeReleased(w, id, now) {
      var more: seq<Call> :| Forward(more, now) && ReleasedIn(Run(w, more), id);
      ReleaseNeedsSigners(w, more, id);
    } else if w.s.deals.configs[id].required <= |Members(w.s.deals.configs[id].signers)| {
      SignersSuffice(w, id, now);
    }
  }

  ghost predicate ReachedDeal(w: World, id: nat) {
    id in w.s.deals.escrows && id in w.s.deals.configs && w.s.deals.escrows[id].status != Released
  }
}
