/** What the escrow asks of a message and what it does in return, in every reachable state:
    acceptance as an if-and-only-if over deals, distinct signers and the clock, and the whole
    change of storage. */
module EscrowRules {
  import opened Common
  import opened Escrow
  import opened EscrowTheorems

  /** Only deal `id` is written. */
  ghost predicate OnlyDeal(s: State, s': State, id: nat) {
    && s'.admin == s.admin && s'.paused == s.paused && s'.approvals == s.approvals
    && s'.deals.configs == s.deals.configs && s'.deals.count == s.deals.count && s'.deals.nonces == s.deals.nonces
    && s'.deals.escrows.Keys == s.deals.escrows.Keys
    && (forall j: nat | j in s.deals.escrows && j != id :: s'.deals.escrows[j] == s.deals.escrows[j])
  }

  /** An escrow is due: complete, past its time lock, and approved by enough different signers. */
  ghost predicate IsDue(s: State, id: nat, now: nat) {
    && id in s.deals.escrows && id in s.deals.configs
    && s.deals.escrows[id].status == Active
    && (s.deals.escrows[id].timeLock.Some? ==> s.deals.escrows[id].timeLock.value <= now)
    && s.deals.configs[id].required <= |Signers(s.approvals, id, ForRelease, s.deals.configs[id])|
  }

  /** Anybody may release an escrow that is due, while the contract is not paused, and nobody any
      other; it pays the agreed amount. */
  lemma ReleaseRule(w: World, e: Env, id: nat)
    requires Good(w)
    ensures ReleaseFunds(w.s, e, id).Ok? <==> !w.s.paused && IsDue(w.s, id, e.now)
    ensures ReleaseFunds(w.s, e, id).Ok? ==>
              var (s', r) := ReleaseFunds(w.s, e, id).value;
              && r == Payment(id, w.s.deals.escrows[id].amount) && OnlyDeal(w.s, s', id)
              && s'.deals.escrows[id] == w.s.deals.escrows[id].(status := Released, deposited := 0)
  {
    hide DealsSound, Balanced, ApprovalsSound, Authorized;
    if id in w.s.deals.escrows {
      DealKnown(w, id);
      IdPositive(w, id);
      CountMeans(w, id, ForRelease);
    }
  }

  /** Whatever was called before, a message that pays does so when the escrow is due, not before
      its time lock, and pays exactly the agreed amount. */
  lemma EveryPaymentIsDue(admin: Address, calls: seq<Call>, c: Call, id: nat, amount: int)
    requires admin != ZERO_ADDRESS
    requires var answer := Handle(Run(Start(admin), calls).s, c.env, c.message);
             answer.Ok? && answer.value.1 == Payment(id, amount)
    ensures var s := Run(Start(admin), calls).s;
            !s.paused && IsDue(s, id, c.env.now) && amount == s.deals.escrows[id].amount
  {
    hide Run, Start, Good;
    StartGood(admin);
    RunGood(Start(admin), calls);
    ReleaseRule(Run(Start(admin), calls), c.env, id);
  }

  /** A deposit is accepted until the agreed amount is reached, and completes the escrow when it
      reaches it. */
  lemma DepositRule(w: World, id: nat, amount: int)
    requires Good(w)
    ensures DepositFunds(w.s, id, amount).Ok?
            <==> !w.s.paused && id in w.s.deals.escrows && w.s.deals.escrows[id].status != Released
                 && 0 < amount <= w.s.deals.escrows[id].amount - w.s.deals.escrows[id].deposited
    ensures DepositFunds(w.s, id, amount).Ok? ==>
              var (s', r), deal := DepositFunds(w.s, id, amount).value, w.s.deals.escrows[id];
              && r == Funds(id, amount) && OnlyDeal(w.s, s', id)
              && s'.deals.escrows[id].deposited == deal.deposited + amount
              && s'.deals.escrows[id] == deal.(deposited := s'.deals.escrows[id].deposited, status := s'.deals.escrows[id].status)
              && (s'.deals.escrows[id].status == Active <==> deal.deposited + amount == deal.amount)
  {
    hide DealsSound, Balanced, ApprovalsSound, Authorized;
    if id in w.s.deals.escrows {
      DealKnown(w, id);
      IdPositive(w, id);
    }
  }

  /** Each configured signer approves once per kind of approval. */
  lemma SignRule(w: World, e: Env, id: nat, t: Approval)
    requires Good(w)
    ensures SignApproval(w.s, e, id, t).Ok?
            <==> !w.s.paused && id in w.s.deals.escrows && id in w.s.deals.configs
                 && e.caller in w.s.deals.configs[id].signers
                 && e.caller !in Signers(w.s.approvals, id, t, w.s.deals.configs[id])
    ensures SignApproval(w.s, e, id, t).Ok? ==>
              var (s', r), config := SignApproval(w.s, e, id, t).value, w.s.deals.configs[id];
              && r == Approved(id, t, e.caller, |Signers(s'.approvals, id, t, config)|)
              && Signers(s'.approvals, id, t, config) == Signers(w.s.approvals, id, t, config) + {e.caller}
              && s'.approvals.signatures == w.s.approvals.signatures + {(id, t, e.caller)}
              && s' == w.s.(approvals := s'.approvals)
  {
    hide DealsSound, Balanced, Authorized;
    SameDeals(w, id);
    if SignApproval(w.s, e, id, t).Ok? {
      var s', config := SignApproval(w.s, e, id, t).value.0, w.s.deals.configs[id];
      assert Signers(s'.approvals, id, t, config) == Signers(w.s.approvals, id, t, config) + {e.caller};
      CountMeans(w, id, t);
    }
  }

  lemma SameDeals(w: World, id: nat)
    requires Good(w)
    ensures id in w.s.deals.configs <==> id in w.s.deals.escrows
    ensures id in w.s.deals.configs ==> id > 0 && ZERO_ADDRESS !in w.s.deals.configs[id].signers
  {
    hide Balanced, ApprovalsSound, Authorized;
    if id in w.s.deals.escrows {
      DealKnown(w, id);
    }
  }

  // ---------------------------------------------------------------------------------------
  // Opening
  // ---------------------------------------------------------------------------------------

  function OpenedBy(buyer: Address): (nat, Deal) -> int {
    (id: nat, deal: Deal) => if deal.buyer == buyer then 1 else 0
  }

  /** A buyer's nonce is the number of its escrows. */
  ghost predicate NoncesCount(d: Deals) {
    forall a: Address :: CountAt(d.nonces, a) == SumBy(d.escrows, OpenedBy(a))
  }

  lemma StepCounts(w: World, c: Call)
    requires Good(w) && NoncesCount(w.s.deals)
    ensures NoncesCount(Exec(w, c).s.deals)
  {
    hide Balanced, ApprovalsSound, Authorized, DealSound, Post, SumBy;
    var d, d' := w.s.deals, Exec(w, c).s.deals;
    forall a: Address ensures CountAt(d'.nonces, a) == SumBy(d'.escrows, OpenedBy(a)) {
      match c.message
      case MCreate(t) =>
        NextFree(d, w.g);
        SumInsert<nat, Deal>(d.escrows, d.count + 1, Open(d, t, c.env.now).escrows[d.count + 1], OpenedBy(a));
      case MDeposit(id, amount) =>
        if DepositFunds(w.s, id, amount).Ok? {
          SumInsert<nat, Deal>(d.escrows, id, d'.escrows[id], OpenedBy(a));
        }
      case MRelease(id) =>
        if ReleaseFunds(w.s, c.env, id).Ok? {
          SumInsert<nat, Deal>(d.escrows, id, d'.escrows[id], OpenedBy(a));
        }
      case _ =>
    }
  }

  lemma {:induction false} RunCounts(w: World, calls: seq<Call>)
    requires Good(w) && NoncesCount(w.s.deals)
    ensures NoncesCount(Run(w, calls).s.deals)
  {
    hide Good, Exec, NoncesCount;
    if calls != [] {
      var before := calls[..|calls| - 1];
      RunCounts(w, before);
      RunGood(w, before);
      StepCounts(Run(w, before), calls[|calls| - 1]);
    }
  }

  ghost predicate ProperTerms(t: Terms, now: nat) {
    && t.property != 0 && t.amount > 0
    && 1 <= t.required <= |t.participants| <= 10
    && t.buyer != ZERO_ADDRESS && t.seller != ZERO_ADDRESS && ZERO_ADDRESS !in t.participants
    && (t.timeLock.Some? ==> now < t.timeLock.value)
  }

  /** In every reachable state an escrow is opened exactly on proper terms, with a time lock in the
      future, under the number of the buyer's escrows so far plus one; it starts empty, on
      these terms, and nothing else changes. */
  lemma OpenRule(admin: Address, calls: seq<Call>, e: Env, t: Terms)
    requires admin != ZERO_ADDRESS
    ensures var s := Run(Start(admin), calls).s;
            CreateEscrow(s, e, t).Ok?
            <==> !s.paused && ProperTerms(t, e.now) && t.nonce == SumBy(s.deals.escrows, OpenedBy(t.buyer)) + 1
    ensures var s := Run(Start(admin), calls).s;
            CreateEscrow(s, e, t).Ok? ==>
              var (s', r), id := CreateEscrow(s, e, t).value, s.deals.count + 1;
              && r == Opened(id) && id !in s.deals.escrows
              && s'.deals.count == id && s'.admin == s.admin && s'.paused == s.paused && s'.approvals == s.approvals
              && s'.deals.escrows.Keys == s.deals.escrows.Keys + {id} && s'.deals.configs.Keys == s.deals.configs.Keys + {id}
              && (forall j: nat | j in s.deals.escrows && j in s.deals.configs ::
                    s'.deals.escrows[j] == s.deals.escrows[j] && s'.deals.configs[j] == s.deals.configs[j])
              && s'.deals.configs[id].required == t.required && s'.deals.configs[id].signers == t.participants
              && var deal := s'.deals.escrows[id];
              && deal.property == t.property && deal.buyer == t.buyer && deal.seller == t.seller && deal.amount == t.amount
              && deal.deposited == 0 && deal.status == Created && deal.createdAt == e.now && deal.timeLock == t.timeLock
              && deal.participants == t.participants
  {
    hide Run, Start, Balanced, ApprovalsSound, Authorized, DealSound;
    StartGood(admin);
    StartCounts(admin);
    RunGood(Start(admin), calls);
    RunCounts(Start(admin), calls);
    NextFree(Run(Start(admin), calls).s.deals, Run(Start(admin), calls).g);
  }

  lemma StartCounts(admin: Address)
    requires admin != ZERO_ADDRESS
    ensures NoncesCount(Start(admin).s.deals)
  {
  }

  // ---------------------------------------------------------------------------------------
  // The admin
  // ---------------------------------------------------------------------------------------

  lemma StepKeepsAdmin(s: State, e: Env, m: Message)
    ensures Handle(s, e, m).Ok? ==> Handle(s, e, m).value.0.admin == s.admin
    ensures Handle(s, e, m).Ok? && Handle(s, e, m).value.0.paused != s.paused ==>
              m.MPause? && e.caller == s.admin && Handle(s, e, m).value.0.paused == m.paused
  {
  }

  lemma OnlyZeroIsRefused(admin: Address)
    ensures Init(admin).Ok? <==> admin != ZERO_ADDRESS
  {
  }

  /** The contract starts unpaused, and whatever was called before, its first admin and nobody else
      can pause and resume it, at any time. */
  lemma {:induction false} OnlyTheAdminPauses(admin: Address, calls: seq<Call>, c: Call)
    requires admin != ZERO_ADDRESS
    ensures var w := Run(Start(admin), calls);
            && w.s.admin == admin && (calls == [] ==> !w.s.paused)
            && (Exec(w, c).s.paused != w.s.paused ==>
                  c.message == MPause(!w.s.paused) && c.env.caller == admin)
            && (c.message.MPause? && c.env.caller == admin ==> Exec(w, c).s.paused == c.message.paused)
  {
    hide Handle, Post;
    if calls != [] {
      var before, last := calls[..|calls| - 1], calls[|calls| - 1];
      OnlyTheAdminPauses(admin, before, last);
      StepKeepsAdmin(Run(Start(admin), before).s, last.env, last.message);
    }
    StepKeepsAdmin(Run(Start(admin), calls).s, c.env, c.message);
    AdminPauses(Run(Start(admin), calls).s, c.env, c.message);
  }

  lemma AdminPauses(s: State, e: Env, m: Message)
    requires s.admin != ZERO_ADDRESS
    ensures m.MPause? && e.caller == s.admin ==> Handle(s, e, m).Ok? && Handle(s, e, m).value.0.paused == m.paused
  {
  }
}
