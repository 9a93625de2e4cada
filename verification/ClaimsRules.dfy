/** What the policy registry and the claims contract ask of a message and what they do in return,
    in every reachable state. */
module ClaimsRules {
  import opened Common
  import opened Claims
  import P = Policies
  import opened ClaimsTheorems

  // ---------------------------------------------------------------------------------------
  // Policies
  // ---------------------------------------------------------------------------------------

  /** The moment a policy ends, when it fits 64 bits. */
  function EndOf(p: P.Policy): nat {
    p.startTime + p.days * 86_400
  }

  ghost predicate InTime(p: P.Policy) {
    EndOf(p) <= U64_MAX
  }

  /** A policy covers its holder while it is active or renewed and has not ended. */
  lemma ActiveMeans(p: P.Policy, now: nat)
    requires InTime(p)
    ensures P.IsActive(p, now) <==> (p.status == P.Active || p.status == P.Renewed) && now <= EndOf(p)
  {
  }

  /** Only policy `id` is rewritten, in its days or its status. */
  ghost predicate OnlyPolicy(r: P.Registry, r': P.Registry, id: nat) {
    && r'.admin == r.admin && r'.counter == r.counter && r'.policies.Keys == r.policies.Keys && id in r.policies
    && (forall j: nat | j in r.policies && j != id :: r'.policies[j] == r.policies[j])
    && r'.policies[id] == r.policies[id].(days := r'.policies[id].days, status := r'.policies[id].status)
  }

  /** The admin issues policies, one number after the other, starting now. */
  lemma IssuingRule(w: World, e: P.Env, holder: Address, coverage: int, premium: int, days: P.U32)
    requires Good(w)
    ensures var r, answer := w.s.registry, P.Issue(w.s.registry, e, holder, coverage, premium, days);
            && (answer.Ok? <==> e.caller == r.admin)
            && (answer.Ok? ==>
                  var (r', id) := answer.value;
                  && id == r.counter + 1 == r'.counter && id !in r.policies && r'.admin == r.admin
                  && r'.policies.Keys == r.policies.Keys + {id}
                  && (forall j: nat | j in r.policies :: r'.policies[j] == r.policies[j])
                  && r'.policies[id].holder == holder && r'.policies[id].coverage == coverage
                  && r'.policies[id].premium == premium && r'.policies[id].startTime == e.now
                  && r'.policies[id].days == days && r'.policies[id].status == P.Active)
  {
    hide LockSound, Backed, Reconciled;
  }

  /** The holder renews exactly a policy that is active, which then ends that many days later. */
  lemma RenewalRule(r: P.Registry, e: P.Env, id: nat, more: P.U32)
    requires id in r.policies ==>
               InTime(r.policies[id]) && r.policies[id].days + more <= 0xFFFF_FFFF
    ensures var answer := P.Renew(r, e, id, more);
            && (answer.Ok? <==> id in r.policies && e.caller == r.policies[id].holder && P.IsActive(r.policies[id], e.now))
            && (answer.Ok? ==>
                  var (r', i) := answer.value;
                  && i == id && OnlyPolicy(r, r', id) && r'.policies[id].status == P.Renewed
                  && EndOf(r'.policies[id]) == EndOf(r.policies[id]) + more * 86_400)
  {
  }

  /** The holder cancels a policy until it ends, and from then on anybody can expire it. */
  lemma EndingRule(r: P.Registry, e: P.Env, id: nat)
    requires id in r.policies ==> InTime(r.policies[id])
    ensures var answer := P.Cancel(r, e, id);
            && (answer.Ok? <==> id in r.policies && e.caller == r.policies[id].holder && e.now <= EndOf(r.policies[id]))
            && (answer.Ok? ==>
                  && answer.value.1 == id && OnlyPolicy(r, answer.value.0, id)
                  && answer.value.0.policies[id] == r.policies[id].(status := P.Cancelled))
    ensures var answer := P.Expire(r, e, id);
            && (answer.Ok? <==> id in r.policies && EndOf(r.policies[id]) <= e.now)
            && (answer.Ok? ==>
                  && answer.value.1 == id && OnlyPolicy(r, answer.value.0, id)
                  && answer.value.0.policies[id] == r.policies[id].(status := P.Expired))
  {
  }

  // ---------------------------------------------------------------------------------------
  // Claims
  // ---------------------------------------------------------------------------------------

  /** In every reachable state a claim is accepted exactly from the holder of an active policy on
      which no claim is open, for a positive amount within its coverage; it is filed under the
      next number and is then the open claim. */
  lemma SubmissionRule(w: World, e: P.Env, policy: nat, amount: int)
    requires Good(w)
    ensures Submit(w.s, e, policy, amount).Ok?
            <==> && policy in w.s.registry.policies && P.IsActive(w.s.registry.policies[policy], e.now)
                 && 0 < amount <= w.s.registry.policies[policy].coverage
                 && OpenClaims(w.s.desk, policy) == {} && e.caller == w.s.registry.policies[policy].holder
    ensures Submit(w.s, e, policy, amount).Ok? ==>
              var (s', r), d, id := Submit(w.s, e, policy, amount).value, w.s.desk, w.s.desk.counter + 1;
              && r == Filed(id, policy) && s'.registry == w.s.registry && s'.desk.admin == d.admin
              && s'.desk.counter == id && id !in d.claims && s'.desk.claims.Keys == d.claims.Keys + {id}
              && (forall c: nat | c in d.claims :: s'.desk.claims[c] == d.claims[c])
              && s'.desk.claims[id] == Claim(policy, e.caller, amount, Submitted, e.now)
              && OpenClaims(s'.desk, policy) == {id} && s'.desk.active == d.active[policy := id]
  {
    hide Reconciled, Backed, P.IsActive;
    LockIsTheScan(w.s.desk, policy);
  }

  /** Only claim `id` moves on, to a new status. */
  ghost predicate OnlyClaim(s: State, s': State, id: nat, to: Status) {
    && s'.registry == s.registry && s'.desk.admin == s.desk.admin && s'.desk.counter == s.desk.counter
    && s'.desk.claims.Keys == s.desk.claims.Keys && id in s.desk.claims
    && (forall c: nat | c in s.desk.claims && c != id :: s'.desk.claims[c] == s.desk.claims[c])
    && s'.desk.claims[id] == s.desk.claims[id].(status := to)
  }

  ghost predicate AdminFinds(s: State, e: P.Env, id: nat, status: Status) {
    e.caller == s.desk.admin && id in s.desk.claims && s.desk.claims[id].status == status
  }

  /** The admin takes a claim from submission to review and from review to approval or rejection;
      only a rejection opens the policy for the next claim. */
  lemma ReviewRule(w: World, e: P.Env, id: nat)
    requires Good(w)
    ensures var answer := StartReview(w.s, e, id);
            && (answer.Ok? <==> AdminFinds(w.s, e, id, Submitted))
            && (answer.Ok? ==> answer.value.1 == Done(id) && OnlyClaim(w.s, answer.value.0, id, UnderReview)
                               && answer.value.0.desk.active == w.s.desk.active)
    ensures var answer := Approve(w.s, e, id);
            && (answer.Ok? <==> AdminFinds(w.s, e, id, UnderReview))
            && (answer.Ok? ==> answer.value.1 == Done(id) && OnlyClaim(w.s, answer.value.0, id, Approved)
                               && answer.value.0.desk.active == w.s.desk.active)
    ensures var answer := Reject(w.s, e, id);
            && (answer.Ok? <==> AdminFinds(w.s, e, id, UnderReview))
            && (answer.Ok? ==> answer.value.1 == Done(id) && OnlyClaim(w.s, answer.value.0, id, Rejected)
                               && Frees(w.s, answer.value.0, w.s.desk.claims[id].policy))
  {
    hide ClaimsBacked, Reconciled;
    if AdminFinds(w.s, e, id, UnderReview) {
      CloseFrees(w, id, Rejected);
    }
  }

  /** The policy can be claimed on again, and no other policy is touched. */
  ghost predicate Frees(s: State, s': State, policy: nat) {
    OpenClaims(s'.desk, policy) == {} && s'.desk.active == s.desk.active - {policy}
  }

  lemma CloseFrees(w: World, id: nat, to: Status)
    requires Good(w) && id in w.s.desk.claims && IsOpen(w.s.desk.claims[id]) && (to == Rejected || to == Settled)
    ensures OpenClaims(Close(w.s.desk, id, to), w.s.desk.claims[id].policy) == {}
  {
    hide ClaimsBacked, Reconciled, LockSound;
    CloseLocks(w.s.desk, id, to);
    LockIsTheScan(Close(w.s.desk, id, to), w.s.desk.claims[id].policy);
  }

  /** The admin settles exactly an approved claim that the pool has the funds for and pays; the
      claimant gets the whole amount. */
  lemma SettlementRule(w: World, e: P.Env, id: nat, pool: Pool)
    requires Good(w)
    ensures Settle(w.s, e, id, pool).Ok?
            <==> AdminFinds(w.s, e, id, Approved) && w.s.desk.claims[id].amount <= pool.available && pool.pays
    ensures Settle(w.s, e, id, pool).Ok? ==>
              var (s', r), claim := Settle(w.s, e, id, pool).value, w.s.desk.claims[id];
              && r == Paid(id, claim.claimant, claim.amount) && OnlyClaim(w.s, s', id, Settled)
              && Frees(w.s, s', claim.policy)
  {
    hide ClaimsBacked, Reconciled;
    if AdminFinds(w.s, e, id, Approved) {
      CloseFrees(w, id, Settled);
    }
  }

  /** Both contracts keep the admins they were created with. */
  lemma {:induction false} EveryRunKeepsTheAdmins(registryAdmin: Address, claimsAdmin: Address, calls: seq<Call>)
    ensures var s := Run(New(registryAdmin, claimsAdmin), calls).s;
            s.registry.admin == registryAdmin && s.desk.admin == claimsAdmin
  {
    hide P.IsActive, P.Longer, P.Expiry, Post;
    if calls != [] {
      EveryRunKeepsTheAdmins(registryAdmin, claimsAdmin, calls[..|calls| - 1]);
    }
  }
}
