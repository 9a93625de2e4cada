/** What the policy, claim and token records keep: payouts reconcile, indexes are exact, and
    every open policy is counted in its pool. */
module InsuranceBook {
  import opened Common
  import opened Liquidity
  import opened Insurance

  type Pools = map<nat, Pool>
  type Policies = map<nat, Policy>
  type Claims = map<nat, Claim>

  // ---------------------------------------------------------------------------------------
  // Payout reconciliation
  // ---------------------------------------------------------------------------------------

  function ClaimedIn(p: nat): (nat, Policy) -> int {
    (i: nat, policy: Policy) => if policy.pool == p then policy.totalClaimed else 0
  }

  function PaidOn(i: nat): (nat, Claim) -> int {
    (c: nat, claim: Claim) => if claim.policy == i && claim.status == Paid then claim.payout else 0
  }

  /** Paid claims on policies that `home` places in pool `p`. */
  function PaidIn(home: map<nat, nat>, p: nat): (nat, Claim) -> int {
    (c: nat, claim: Claim) =>
      if claim.policy in home && home[claim.policy] == p && claim.status == Paid then claim.payout else 0
  }

  function Homes(policies: Policies): map<nat, nat> {
    map i | i in policies :: policies[i].pool
  }

  /** Pool totals, policy totals and the claims marked as paid all tell the same story. */
  ghost predicate Reconciled(pools: Pools, policies: Policies, claims: Claims) {
    && (forall i: nat | i in policies :: policies[i].pool in pools)
    && (forall c: nat | c in claims :: claims[c].policy in policies)
    && (forall p: nat | p in pools :: pools[p].claimsPaid == SumBy<nat, Policy>(policies, ClaimedIn(p)))
    && (forall i: nat | i in policies :: policies[i].totalClaimed == SumBy<nat, Claim>(claims, PaidOn(i)))
    && (forall p: nat | p in pools :: pools[p].claimsPaid == SumBy<nat, Claim>(claims, PaidIn(Homes(policies), p)))
  }

  /** `pools'` keeps every pool's claim total and counter; pools that are new are blank. */
  ghost predicate Alike(pools: Pools, pools': Pools) {
    && (forall p: nat | p in pools :: p in pools'
         && pools'[p].claimsPaid == pools[p].claimsPaid && pools'[p].activePolicies >= pools[p].activePolicies)
    && (forall p: nat | p in pools' && p !in pools :: pools'[p].claimsPaid == 0)
  }

  lemma {:induction false} SumZero<V(!new)>(m: map<nat, V>, f: (nat, V) -> int)
    requires forall k: nat | k in m :: f(k, m[k]) == 0
    ensures SumBy(m, f) == 0
    decreases |m|
  {
    if m != map[] {
      var k :| k in m;
      SumRemove(m, k, f);
      SumZero(m - {k}, f);
    }
  }

  lemma ReconciledPools(pools: Pools, pools': Pools, policies: Policies, claims: Claims)
    requires Reconciled(pools, policies, claims) && Alike(pools, pools')
    ensures Reconciled(pools', policies, claims)
  {
    forall p: nat | p in pools'
      ensures pools'[p].claimsPaid == SumBy<nat, Policy>(policies, ClaimedIn(p))
      ensures pools'[p].claimsPaid == SumBy<nat, Claim>(claims, PaidIn(Homes(policies), p))
    {
      if p !in pools {
        SumZero<Policy>(policies, ClaimedIn(p));
        SumZero<Claim>(claims, PaidIn(Homes(policies), p));
      }
    }
  }

  /** Where other policies live does not matter to the claims paid in a pool. */
  lemma PaidInSame(claims: Claims, home: map<nat, nat>, home': map<nat, nat>, p: nat)
    requires forall c: nat | c in claims :: claims[c].policy in home && claims[c].policy in home'
               && home'[claims[c].policy] == home[claims[c].policy]
    ensures SumBy<nat, Claim>(claims, PaidIn(home', p)) == SumBy<nat, Claim>(claims, PaidIn(home, p))
  {
    SumCongruent<nat, Claim>(claims, PaidIn(home', p), PaidIn(home, p));
  }

  lemma ClaimedSame(policies: Policies, i: nat, policy: Policy, p: nat)
    requires if i in policies then policy.pool == policies[i].pool && policy.totalClaimed == policies[i].totalClaimed
             else policy.totalClaimed == 0
    ensures SumBy<nat, Policy>(policies[i := policy], ClaimedIn(p)) == SumBy<nat, Policy>(policies, ClaimedIn(p))
  {
    SumInsert<nat, Policy>(policies, i, policy, ClaimedIn(p));
  }

  lemma NothingPaidOn(claims: Claims, i: nat)
    requires forall c: nat | c in claims :: claims[c].policy != i
    ensures SumBy<nat, Claim>(claims, PaidOn(i)) == 0
  {
    SumZero<Claim>(claims, PaidOn(i));
  }

  /** Rewriting a policy without touching its pool or its claimed total, or adding a fresh one. */
  lemma ReconciledPolicy(pools: Pools, policies: Policies, claims: Claims, i: nat, policy: Policy)
    requires Reconciled(pools, policies, claims) && policy.pool in pools
    requires if i in policies then policy.pool == policies[i].pool && policy.totalClaimed == policies[i].totalClaimed
             else policy.totalClaimed == 0
    ensures Reconciled(pools, policies[i := policy], claims)
  {
    hide ClaimedIn, PaidOn, PaidIn, SumBy;
    var policies': Policies := policies[i := policy];
    if i !in policies {
      NothingPaidOn(claims, i);
    }
    forall p: nat | p in pools
      ensures pools[p].claimsPaid == SumBy<nat, Policy>(policies', ClaimedIn(p))
      ensures pools[p].claimsPaid == SumBy<nat, Claim>(claims, PaidIn(Homes(policies'), p))
    {
      ClaimedSame(policies, i, policy, p);
      PaidInSame(claims, Homes(policies), Homes(policies'), p);
    }
  }

  /** Writing a claim that is not paid, before or after. */
  lemma ReconciledClaim(pools: Pools, policies: Policies, claims: Claims, c: nat, claim: Claim)
    requires Reconciled(pools, policies, claims) && claim.policy in policies && claim.status != Paid
    requires c in claims ==> claims[c].status != Paid
    ensures Reconciled(pools, policies, claims[c := claim])
  {
    forall i: nat | i in policies ensures policies[i].totalClaimed == SumBy<nat, Claim>(claims[c := claim], PaidOn(i)) {
      SumInsert<nat, Claim>(claims, c, claim, PaidOn(i));
    }
    forall p: nat | p in pools ensures pools[p].claimsPaid == SumBy<nat, Claim>(claims[c := claim], PaidIn(Homes(policies), p)) {
      SumInsert<nat, Claim>(claims, c, claim, PaidIn(Homes(policies), p));
    }
  }

  lemma PaidOnAfter(claims: Claims, c: nat, i: nat)
    requires c in claims && claims[c].status != Paid
    ensures SumBy<nat, Claim>(claims[c := claims[c].(status := Paid)], PaidOn(i))
         == SumBy<nat, Claim>(claims, PaidOn(i)) + (if claims[c].policy == i then claims[c].payout else 0)
  {
    SumInsert<nat, Claim>(claims, c, claims[c].(status := Paid), PaidOn(i));
  }

  lemma PaidInAfter(claims: Claims, c: nat, home: map<nat, nat>, p: nat)
    requires c in claims && claims[c].status != Paid && claims[c].policy in home
    ensures SumBy<nat, Claim>(claims[c := claims[c].(status := Paid)], PaidIn(home, p))
         == SumBy<nat, Claim>(claims, PaidIn(home, p)) + (if home[claims[c].policy] == p then claims[c].payout else 0)
  {
    SumInsert<nat, Claim>(claims, c, claims[c].(status := Paid), PaidIn(home, p));
  }

  lemma ClaimedAfter(policies: Policies, i: nat, policy: Policy, p: nat)
    requires i in policies && policy.pool == policies[i].pool
    ensures SumBy<nat, Policy>(policies[i := policy], ClaimedIn(p))
         == SumBy<nat, Policy>(policies, ClaimedIn(p)) + (if policy.pool == p then policy.totalClaimed - policies[i].totalClaimed else 0)
  {
    SumInsert<nat, Policy>(policies, i, policy, ClaimedIn(p));
  }

  /** A payout raises the pool, the policy and the paid claims by the same amount. */
  lemma ReconciledPayout(pools: Pools, policies: Policies, claims: Claims, c: nat, i: nat, policy: Policy, q: Pool)
    requires Reconciled(pools, policies, claims) && c in claims && claims[c].status != Paid && i == claims[c].policy
    requires policy.pool == policies[i].pool && policy.totalClaimed == policies[i].totalClaimed + claims[c].payout
    requires q.claimsPaid == pools[policy.pool].claimsPaid + claims[c].payout
    ensures Reconciled(pools[policy.pool := q], policies[i := policy], claims[c := claims[c].(status := Paid)])
  {
    hide ClaimedIn, PaidOn, PaidIn;
    var pools': Pools, policies': Policies, claims': Claims :=
      pools[policy.pool := q], policies[i := policy], claims[c := claims[c].(status := Paid)];
    assert Homes(policies') == Homes(policies);
    forall j: nat | j in policies' ensures policies'[j].totalClaimed == SumBy<nat, Claim>(claims', PaidOn(j)) {
      PaidOnAfter(claims, c, j);
    }
    forall p: nat | p in pools'
      ensures pools'[p].claimsPaid == SumBy<nat, Policy>(policies', ClaimedIn(p))
      ensures pools'[p].claimsPaid == SumBy<nat, Claim>(claims', PaidIn(Homes(policies'), p))
    {
      ClaimedAfter(policies, i, policy, p);
      PaidInAfter(claims, c, Homes(policies), p);
    }
  }

  // ---------------------------------------------------------------------------------------
  // Open policies
  // ---------------------------------------------------------------------------------------

  predicate Open(policy: Policy) {
    policy.status == Active || policy.status == Renewed
  }

  function OpenIn(p: nat): (nat, Policy) -> int {
    (i: nat, policy: Policy) => if policy.pool == p && Open(policy) then 1 else 0
  }

  /** Every open policy is counted by its pool, so ending one never finds the counter at zero. */
  ghost predicate Counted(pools: Pools, policies: Policies) {
    forall p: nat | p in pools :: SumBy<nat, Policy>(policies, OpenIn(p)) <= pools[p].activePolicies
  }

  lemma CountedAlike(pools: Pools, pools': Pools, policies: Policies)
    requires Counted(pools, policies) && Alike(pools, pools')
    requires forall i: nat | i in policies :: policies[i].pool in pools
    ensures Counted(pools', policies)
  {
    forall p: nat | p in pools' ensures SumBy<nat, Policy>(policies, OpenIn(p)) <= pools'[p].activePolicies {
      if p !in pools {
        SumZero<Policy>(policies, OpenIn(p));
      }
    }
  }

  /** A rewritten policy that is open only if it was. */
  lemma CountedPolicy(pools: Pools, policies: Policies, i: nat, policy: Policy)
    requires Counted(pools, policies) && i in policies && policy.pool == policies[i].pool
    requires Open(policy) ==> Open(policies[i])
    ensures Counted(pools, policies[i := policy])
  {
    forall p: nat | p in pools ensures SumBy<nat, Policy>(policies[i := policy], OpenIn(p)) <= pools[p].activePolicies {
      SumInsert<nat, Policy>(policies, i, policy, OpenIn(p));
    }
  }

  /** Ending an open policy takes one off its pool's counter, which was not zero. */
  lemma CountedEnd(l: Liq, policies: Policies, i: nat, status: PolicyStatus)
    requires Counted(l.pools, policies) && i in policies && Open(policies[i]) && policies[i].pool in l.pools
    requires status != Active && status != Renewed
    ensures var p := policies[i].pool;
            && l.pools[p].activePolicies > 0
            && EndIn(l, p).pools[p].activePolicies == l.pools[p].activePolicies - 1
            && Counted(EndIn(l, p).pools, policies[i := policies[i].(status := status)])
  {
    var policy, p := policies[i].(status := status), policies[i].pool;
    SumTerm<nat, Policy>(policies, OpenIn(p));
    assert OpenIn(p)(i, policies[i]) == 1;
    forall p': nat | p' in l.pools
      ensures SumBy<nat, Policy>(policies[i := policy], OpenIn(p')) <= EndIn(l, p).pools[p'].activePolicies
    {
      SumInsert<nat, Policy>(policies, i, policy, OpenIn(p'));
    }
  }

  lemma CountedIssue(pools: Pools, policies: Policies, i: nat, policy: Policy, q: Pool)
    requires Counted(pools, policies) && i !in policies && policy.pool in pools
    requires q.activePolicies == pools[policy.pool].activePolicies + 1
    ensures Counted(pools[policy.pool := q], policies[i := policy])
  {
    forall p: nat | p in pools
      ensures SumBy<nat, Policy>(policies[i := policy], OpenIn(p)) <= pools[policy.pool := q][p].activePolicies
    {
      SumInsert<nat, Policy>(policies, i, policy, OpenIn(p));
    }
  }

  // ---------------------------------------------------------------------------------------
  // Numbering, tokens and indexes
  // ---------------------------------------------------------------------------------------

  /** Policies, tokens and claims are numbered without gaps; token `i` is policy `i`'s only
      token and both have the same owner. */
  ghost predicate Numbered(b: Book) {
    && (forall i: nat :: i in b.policies <==> 1 <= i <= b.policyCount)
    && (forall i: nat :: i in b.tokens <==> i in b.policies)
    && b.tokenCount == b.policyCount
    && (forall c: nat :: c in b.claims <==> 1 <= c <= b.claimCount)
    && (forall i: nat | i in b.tokens :: b.tokens[i].policy == i && b.tokens[i].owner == b.policies[i].holder)
  }

  function Holders(policies: Policies): map<nat, Address> {
    map i | i in policies :: policies[i].holder
  }

  function Properties(policies: Policies): map<nat, nat> {
    map i | i in policies :: policies[i].property
  }

  function Subjects(claims: Claims): map<nat, nat> {
    map c | c in claims :: claims[c].policy
  }

  ghost predicate Listing(b: Book) {
    && NoDuplicates(b.listings)
    && (forall t: nat :: t in b.listings <==> t in b.tokens && b.tokens[t].listed.Some?)
  }

  ghost predicate Indexed(b: Book) {
    && Indexes<Address, nat>(b.holderPolicies, Holders(b.policies))
    && Indexes<nat, nat>(b.propertyPolicies, Properties(b.policies))
    && Indexes<nat, nat>(b.policyClaims, Subjects(b.claims))
    && Listing(b)
  }

  /** Claims stay within their policy's coverage and pay the claimed amount less the deductible. */
  ghost predicate ClaimSound(claim: Claim, policies: Policies) {
    && claim.policy in policies
    && 0 < claim.amount <= policies[claim.policy].coverage
    && (claim.status == Approved || claim.status == Paid ==>
          claim.payout == SatSub(claim.amount, policies[claim.policy].deductible))
    && (claim.status == Paid ==> claim.payout > 0)
  }

  ghost predicate ClaimsSound(b: Book) {
    forall c: nat | c in b.claims :: ClaimSound(b.claims[c], b.policies)
  }

  ghost predicate BookSound(pools: Pools, b: Book) {
    Reconciled(pools, b.policies, b.claims) && Counted(pools, b.policies) && Numbered(b) && Indexed(b) && ClaimsSound(b)
  }

  lemma PoolsOnly(pools: Pools, pools': Pools, b: Book)
    requires BookSound(pools, b) && Alike(pools, pools')
    ensures BookSound(pools', b)
  {
    ReconciledPools(pools, pools', b.policies, b.claims);
    CountedAlike(pools, pools', b.policies);
  }

  lemma PoolKnown(pools: Pools, b: Book, i: nat)
    requires BookSound(pools, b) && i in b.policies
    ensures b.policies[i].pool in pools
  {
  }

  lemma ClaimKnown(pools: Pools, b: Book, c: nat)
    requires BookSound(pools, b) && c in b.claims
    ensures ClaimSound(b.claims[c], b.policies) && b.policies[b.claims[c].policy].pool in pools
  {
  }

  lemma TokenKnown(b: Book, id: nat)
    requires Numbered(b) && id in b.tokens
    ensures b.tokens[id].policy == id && id in b.policies && b.policies[id].holder == b.tokens[id].owner
  {
  }

  /** A policy rewritten in fields no index and no total depends on. */
  lemma PolicyRewritten(pools: Pools, b: Book, i: nat, policy: Policy)
    requires BookSound(pools, b) && i in b.policies
    requires policy == b.policies[i].(endTime := policy.endTime, premium := policy.premium,
                                      status := policy.status, claimsCount := policy.claimsCount)
    requires Open(policy) ==> Open(b.policies[i])
    ensures BookSound(pools, b.(policies := b.policies[i := policy]))
  {
    hide Reconciled, Counted, Numbered, Indexed, ClaimsSound, Open;
    PoolKnown(pools, b, i);
    ReconciledPolicy(pools, b.policies, b.claims, i, policy);
    CountedPolicy(pools, b.policies, i, policy);
    SameIndexes(b, i, policy);
  }

  lemma SameIndexes(b: Book, i: nat, policy: Policy)
    requires Numbered(b) && Indexed(b) && ClaimsSound(b) && i in b.policies
    requires policy.holder == b.policies[i].holder && policy.property == b.policies[i].property
    requires policy.coverage == b.policies[i].coverage && policy.deductible == b.policies[i].deductible
    ensures var b' := b.(policies := b.policies[i := policy]); Numbered(b') && Indexed(b') && ClaimsSound(b')
  {
    var b' := b.(policies := b.policies[i := policy]);
    assert Holders(b'.policies) == Holders(b.policies);
    assert Properties(b'.policies) == Properties(b.policies);
    forall c: nat | c in b'.claims ensures ClaimSound(b'.claims[c], b'.policies) {
      assert ClaimSound(b.claims[c], b.policies);
    }
  }

  lemma EndSound(l: Liq, b: Book, i: nat, status: PolicyStatus)
    requires BookSound(l.pools, b) && i in b.policies && b.policies[i].status == Active
    requires status == Cancelled || status == Expired
    ensures BookSound(EndIn(l, b.policies[i].pool).pools,
                      b.(policies := b.policies[i := b.policies[i].(status := status)]))
  {
    hide Reconciled, Counted, Numbered, Indexed, ClaimsSound;
    var policy, p := b.policies[i].(status := status), b.policies[i].pool;
    PoolKnown(l.pools, b, i);
    CountedEnd(l, b.policies, i, status);
    ReconciledPolicy(l.pools, b.policies, b.claims, i, policy);
    SameClaims(l.pools, EndIn(l, p).pools, b.policies[i := policy], b.claims);
    SameIndexes(b, i, policy);
  }

  lemma SameClaims(pools: Pools, pools': Pools, policies: Policies, claims: Claims)
    requires Reconciled(pools, policies, claims) && pools.Keys == pools'.Keys
    requires forall p: nat | p in pools :: pools'[p].claimsPaid == pools[p].claimsPaid
    ensures Reconciled(pools', policies, claims)
  {
  }

  lemma {:induction false} ExpireSound(l: Liq, b: Book, i: nat, count: nat, left: nat, now: nat)
    requires BookSound(l.pools, b)
    ensures var (l', policies, _) := ExpireFrom(l, b.policies, i, count, left, now);
            BookSound(l'.pools, b.(policies := policies))
    decreases count + 1 - i
  {
    hide BookSound;
    if i <= count && left > 0 {
      if i in b.policies && Overdue(b.policies[i], now) {
        EndSound(l, b, i, Expired);
        ExpireSound(EndIn(l, b.policies[i].pool),
                    b.(policies := b.policies[i := b.policies[i].(status := Expired)]), i + 1, count, left - 1, now);
      } else {
        ExpireSound(l, b, i + 1, count, left, now);
      }
    }
  }

  lemma IssueNumbered(b: Book, policy: Policy, fee: nat)
    requires Numbered(b)
    ensures Numbered(Issue(b, policy, fee)) && b.policyCount + 1 !in b.policies
  {
  }

  lemma IssueLists(b: Book, policy: Policy)
    requires b.policyCount + 1 !in b.policies
    requires Indexes<Address, nat>(b.holderPolicies, Holders(b.policies))
    requires Indexes<nat, nat>(b.propertyPolicies, Properties(b.policies))
    ensures var b' := Enrol(b, policy);
            && Indexes<Address, nat>(b'.holderPolicies, Holders(b'.policies))
            && Indexes<nat, nat>(b'.propertyPolicies, Properties(b'.policies))
  {
    hide Indexes;
    var id, policies' := b.policyCount + 1, Enrol(b, policy).policies;
    IndexAdd<Address, nat>(b.holderPolicies, Holders(b.policies), id, policy.holder);
    assert Holders(policies') == Holders(b.policies)[id := policy.holder];
    IndexAdd<nat, nat>(b.propertyPolicies, Properties(b.policies), id, policy.property);
    assert Properties(policies') == Properties(b.policies)[id := policy.property];
  }

  lemma EnrolIndexed(b: Book, policy: Policy)
    requires Indexed(b) && b.policyCount + 1 !in b.policies
    ensures Indexed(Enrol(b, policy)) && Enrol(b, policy).tokens == b.tokens && Enrol(b, policy).tokenCount == b.tokenCount
  {
    hide Indexes;
    IssueLists(b, policy);
  }

  lemma MintIndexed(b: Book, policyId: nat, owner: Address, faceValue: nat)
    requires Indexed(b) && b.tokenCount + 1 !in b.tokens
    ensures Indexed(Mint(b, policyId, owner, faceValue))
  {
    hide Indexes;
  }

  lemma IssueIndexed(b: Book, policy: Policy, fee: nat)
    requires Numbered(b) && Indexed(b)
    ensures Indexed(Issue(b, policy, fee))
  {
    hide Numbered, Indexed, Enrol, Mint;
    FreshIds(b);
    var b1 := b.(platformFees := b.platformFees + fee);
    FeesIndexed(b, b1.platformFees);
    EnrolIndexed(b1, policy);
    MintIndexed(Enrol(b1, policy), b.policyCount + 1, policy.holder, policy.coverage);
  }

  lemma FreshIds(b: Book)
    requires Numbered(b)
    ensures b.policyCount + 1 !in b.policies && b.tokenCount + 1 !in b.tokens
  {
  }

  lemma FeesIndexed(b: Book, fees: nat)
    requires Indexed(b)
    ensures Indexed(b.(platformFees := fees))
  {
    hide Indexes;
  }

  lemma ClaimsKeep(b: Book, b': Book)
    requires ClaimsSound(b) && b'.claims == b.claims
    requires forall i: nat | i in b.policies :: i in b'.policies
               && b'.policies[i].coverage == b.policies[i].coverage && b'.policies[i].deductible == b.policies[i].deductible
    ensures ClaimsSound(b')
  {
    forall c: nat | c in b'.claims ensures ClaimSound(b'.claims[c], b'.policies) {
      assert ClaimSound(b.claims[c], b.policies);
    }
  }

  lemma IssueSound(pools: Pools, b: Book, policy: Policy, fee: nat, q: Pool)
    requires BookSound(pools, b) && policy.pool in pools && policy.totalClaimed == 0
    requires q.claimsPaid == pools[policy.pool].claimsPaid
    requires q.activePolicies == pools[policy.pool].activePolicies + 1
    ensures BookSound(pools[policy.pool := q], Issue(b, policy, fee))
  {
    hide Reconciled, Counted, Numbered, Indexed, ClaimsSound;
    var id, b' := b.policyCount + 1, Issue(b, policy, fee);
    IssueNumbered(b, policy, fee);
    IssueIndexed(b, policy, fee);
    ReconciledPolicy(pools, b.policies, b.claims, id, policy);
    SameClaims(pools, pools[policy.pool := q], b'.policies, b.claims);
    CountedIssue(pools, b.policies, id, policy, q);
    ClaimsKeep(b, b');
  }

  function AddClaim(b: Book, claim: Claim): Book {
    var id := b.claimCount + 1;
    b.(claimCount := id, claims := b.claims[id := claim],
       policyClaims := b.policyClaims[claim.policy := ListAt(b.policyClaims, claim.policy) + [id]])
  }

  lemma AddNumbered(b: Book, claim: Claim)
    requires Numbered(b)
    ensures b.claimCount + 1 !in b.claims && Numbered(AddClaim(b, claim))
  {
  }

  lemma AddIndexed(b: Book, claim: Claim)
    requires Numbered(b) && Indexed(b)
    ensures Indexed(AddClaim(b, claim))
  {
    hide Indexes, Numbered;
    var id := b.claimCount + 1;
    AddNumbered(b, claim);
    IndexAdd<nat, nat>(b.policyClaims, Subjects(b.claims), id, claim.policy);
    assert Subjects(b.claims[id := claim]) == Subjects(b.claims)[id := claim.policy];
  }

  lemma AddSound(b: Book, claim: Claim)
    requires ClaimsSound(b) && ClaimSound(claim, b.policies)
    ensures ClaimsSound(AddClaim(b, claim))
  {
  }

  lemma FileSound(pools: Pools, b: Book, claim: Claim)
    requires BookSound(pools, b) && claim.policy in b.policies && claim.status == Pending
    requires 0 < claim.amount <= b.policies[claim.policy].coverage
    ensures BookSound(pools, FileClaim(b, b.claimCount + 1, claim))
  {
    hide Reconciled, Counted, Numbered, Indexed, ClaimsSound;
    var id, policy := b.claimCount + 1, b.policies[claim.policy];
    var policy' := policy.(claimsCount := policy.claimsCount + 1);
    PolicyRewritten(pools, b, claim.policy, policy');
    var b1 := b.(policies := b.policies[claim.policy := policy']);
    AddNumbered(b1, claim);
    AddIndexed(b1, claim);
    AddSound(b1, claim);
    assert FileClaim(b, id, claim) == AddClaim(b1, claim);
    ReconciledClaim(pools, b1.policies, b1.claims, id, claim);
  }

  lemma ClaimIndexed(b: Book, c: nat, claim: Claim)
    requires Numbered(b) && Indexed(b) && ClaimsSound(b) && c in b.claims
    requires claim.policy == b.claims[c].policy && ClaimSound(claim, b.policies)
    ensures var b' := b.(claims := b.claims[c := claim]); Numbered(b') && Indexed(b') && ClaimsSound(b')
  {
    hide Indexes;
    assert Subjects(b.claims[c := claim]) == Subjects(b.claims);
  }

  /** A claim under review is decided but not (yet) paid. */
  lemma DecideSound(pools: Pools, b: Book, c: nat, claim: Claim)
    requires BookSound(pools, b) && c in b.claims && b.claims[c].status != Paid && claim.status != Paid
    requires claim.policy == b.claims[c].policy && claim.amount == b.claims[c].amount
    requires claim.status == Approved ==> claim.payout == SatSub(claim.amount, b.policies[claim.policy].deductible)
    ensures BookSound(pools, b.(claims := b.claims[c := claim]))
  {
    assert ClaimSound(b.claims[c], b.policies);
    hide Reconciled, Counted, Numbered, Indexed, ClaimsSound;
    ReconciledClaim(pools, b.policies, b.claims, c, claim);
    ClaimIndexed(b, c, claim);
  }

  lemma PayoutSound(pools: Pools, b: Book, c: nat, i: nat, policy: Policy, q: Pool)
    requires c in b.claims && b.claims[c].status == Approved && b.claims[c].payout > 0
    requires i == b.claims[c].policy && i in b.policies && policy.pool in pools
    requires policy == b.policies[i].(totalClaimed := b.policies[i].totalClaimed + b.claims[c].payout, status := policy.status)
    requires policy.status == b.policies[i].status || policy.status == Claimed
    requires q == PayClaim(pools[policy.pool], b.claims[c].payout)
    requires BookSound(pools, b)
    ensures BookSound(pools[policy.pool := q],
                      b.(policies := b.policies[i := policy], claims := b.claims[c := b.claims[c].(status := Paid)]))
  {
    hide Reconciled, Counted, Numbered, Indexed, ClaimsSound;
    ClaimKnown(pools, b, c);
    ReconciledPayout(pools, b.policies, b.claims, c, i, policy, q);
    CountedPolicy(pools, b.policies, i, policy);
    CountedSame(pools, pools[policy.pool := q], b.policies[i := policy]);
    SameIndexes(b, i, policy);
    ClaimIndexed(b.(policies := b.policies[i := policy]), c, b.claims[c].(status := Paid));
  }

  lemma CountedSame(pools: Pools, pools': Pools, policies: Policies)
    requires Counted(pools, policies) && pools.Keys == pools'.Keys
    requires forall p: nat | p in pools :: pools'[p].activePolicies == pools[p].activePolicies
    ensures Counted(pools', policies)
  {
  }

  lemma TransferNumbered(b: Book, id: nat, buyer: Address)
    requires Numbered(b) && id in b.tokens
    ensures b.tokens[id].policy in b.policies && Numbered(Transfer(b, id, buyer))
  {
  }

  lemma TransferIndexed(b: Book, id: nat, buyer: Address)
    requires Numbered(b) && Indexed(b) && id in b.tokens
    ensures b.tokens[id].policy in b.policies && Indexed(Transfer(b, id, buyer))
  {
    hide Indexes, Numbered;
    TokenKnown(b, id);
    var b', seller := Transfer(b, id, buyer), b.tokens[id].owner;
    var rest := Holders(b.policies) - {id};
    IndexRemove<Address, nat>(b.holderPolicies, Holders(b.policies), id);
    IndexAdd<Address, nat>(b.holderPolicies[seller := Without(ListAt(b.holderPolicies, seller), id)], rest, id, buyer);
    assert Holders(b'.policies) == rest[id := buyer];
    assert Properties(b'.policies) == Properties(b.policies);
    WithoutNoDuplicates(b.listings, id);
  }

  lemma TransferSound(pools: Pools, b: Book, id: nat, buyer: Address)
    requires BookSound(pools, b) && id in b.tokens
    ensures b.tokens[id].policy in b.policies && BookSound(pools, Transfer(b, id, buyer))
  {
    hide Reconciled, Counted, Numbered, Indexed, ClaimsSound;
    TokenKnown(b, id);
    PoolKnown(pools, b, id);
    var b' := Transfer(b, id, buyer);
    TransferNumbered(b, id, buyer);
    TransferIndexed(b, id, buyer);
    ReconciledPolicy(pools, b.policies, b.claims, id, b'.policies[id]);
    CountedPolicy(pools, b.policies, id, b'.policies[id]);
    ClaimsKeep(b, b');
  }

  lemma ListSound(pools: Pools, b: Book, id: nat, price: nat)
    requires BookSound(pools, b) && id in b.tokens
    ensures BookSound(pools, b.(tokens := b.tokens[id := b.tokens[id].(listed := Some(price))],
                                listings := if id in b.listings then b.listings else b.listings + [id]))
  {
    hide Reconciled, Counted, Indexes;
    ClaimsKeep(b, b.(listings := []));
  }
}
