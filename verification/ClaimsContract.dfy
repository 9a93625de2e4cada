/** The policy registry and the claims contract as two objects; the second calls the first.
    Every method is tied to the function of the same message. */
module ClaimsContract {
  import opened Common
  import P = Policies
  import C = Claims

  class PolicyContract {
    const admin: Address
    var policies: map<nat, P.Policy>
    var policyCounter: nat

    ghost function View(): P.Registry
      reads this
    {
      P.Registry(admin, policies, policyCounter)
    }

    constructor (deployer: Address)
      ensures View() == P.New(deployer)
    {
      admin, policies, policyCounter := deployer, map[], 0;
    }

    method IssuePolicy(e: P.Env, holder: Address, coverage: int, premium: int, days: P.U32) returns (r: Result<nat, P.Error>)
      modifies this
      ensures Commits(P.Issue(old(View()), e, holder, coverage, premium, days), old(View()), View(), r)
    {
      if e.caller != admin {
        return Err(P.Unauthorized);
      }
      policyCounter := policyCounter + 1;
      policies := policies[policyCounter := P.Policy(holder, coverage, premium, e.now, days, P.Active)];
      return Ok(policyCounter);
    }

    method IsActive(now: nat, id: nat) returns (r: Result<bool, P.Error>)
      ensures r == if id in policies then Ok(P.IsActive(policies[id], now)) else Err(P.PolicyNotFound)
    {
      if id !in policies {
        return Err(P.PolicyNotFound);
      }
      var policy := policies[id];
      if policy.status != P.Active && policy.status != P.Renewed {
        return Ok(false);
      }
      var expiry := P.Expiry(policy);
      return Ok(now <= expiry);
    }

    method RenewPolicy(e: P.Env, id: nat, more: P.U32) returns (r: Result<nat, P.Error>)
      modifies `policies
      ensures Commits(P.Renew(old(View()), e, id, more), old(View()), View(), r)
    {
      hide P.Longer, P.Expiry;
      if id !in policies {
        return Err(P.PolicyNotFound);
      }
      var policy := policies[id];
      if e.caller != policy.holder {
        return Err(P.Unauthorized);
      }
      if policy.status != P.Active && policy.status != P.Renewed {
        return Err(P.PolicyNotActive);
      }
      if e.now > P.Expiry(policy) {
        return Err(P.PolicyHasExpired);
      }
      policy := policy.(days := P.Longer(policy.days, more));
      policy := policy.(status := P.Renewed);
      policies := policies[id := policy];
      return Ok(id);
    }

    method CancelPolicy(e: P.Env, id: nat) returns (r: Result<nat, P.Error>)
      modifies `policies
      ensures Commits(P.Cancel(old(View()), e, id), old(View()), View(), r)
    {
      hide P.Expiry;
      if id !in policies {
        return Err(P.PolicyNotFound);
      }
      var policy := policies[id];
      if e.caller != policy.holder {
        return Err(P.Unauthorized);
      }
      if e.now > P.Expiry(policy) {
        return Err(P.PolicyHasExpired);
      }
      policies := policies[id := policy.(status := P.Cancelled)];
      return Ok(id);
    }

    method ExpirePolicy(e: P.Env, id: nat) returns (r: Result<nat, P.Error>)
      modifies `policies
      ensures Commits(P.Expire(old(View()), e, id), old(View()), View(), r)
    {
      hide P.Expiry;
      if id !in policies {
        return Err(P.PolicyNotFound);
      }
      var policy := policies[id];
      if e.now < P.Expiry(policy) {
        return Err(P.NotYetExpired);
      }
      policies := policies[id := policy.(status := P.Expired)];
      return Ok(id);
    }
  }

  class ClaimsDesk {
    const admin: Address
    const registry: PolicyContract
    var claims: map<nat, C.Claim>
    var claimCounter: nat
    var policyActiveClaim: map<nat, nat>

    ghost function View(): C.State
      reads this, registry
    {
      C.State(registry.View(), C.Desk(admin, claims, claimCounter, policyActiveClaim))
    }

    constructor (deployer: Address, policyContract: PolicyContract)
      ensures registry == policyContract
      ensures View() == C.New(0, deployer).(registry := policyContract.View())
    {
      admin, registry := deployer, policyContract;
      claims, claimCounter, policyActiveClaim := map[], 0, map[];
    }

    method SubmitClaim(e: P.Env, policyId: nat, amount: int) returns (r: Result<C.Receipt, C.Error>)
      modifies `claims, `claimCounter, `policyActiveClaim
      ensures Commits(C.Submit(old(View()), e, policyId, amount), old(View()), View(), r)
    {
      hide P.IsActive;
      var active := registry.IsActive(e.now, policyId);
      if active.Err? {
        return Err(C.FromRegistry(active.error));
      }
      if !active.value {
        return Err(C.PolicyInactive);
      }
      var policy := registry.policies[policyId];
      if amount <= 0 || amount > policy.coverage {
        return Err(C.InvalidAmount);
      }
      if policyId in policyActiveClaim {
        return Err(C.DuplicateClaim);
      }
      var claimant := policy.holder;
      if e.caller != claimant {
        return Err(C.Unauthorized);
      }
      claimCounter := claimCounter + 1;
      claims := claims[claimCounter := C.Claim(policyId, claimant, amount, C.Submitted, e.now)];
      policyActiveClaim := policyActiveClaim[policyId := claimCounter];
      return Ok(C.Filed(claimCounter, policyId));
    }

    method StartReview(e: P.Env, id: nat) returns (r: Result<C.Receipt, C.Error>)
      modifies `claims
      ensures Commits(C.StartReview(old(View()), e, id), old(View()), View(), r)
    {
      if e.caller != admin {
        return Err(C.Unauthorized);
      }
      if id !in claims {
        return Err(C.ClaimNotFound);
      }
      if claims[id].status != C.Submitted {
        return Err(C.InvalidStatus);
      }
      claims := claims[id := claims[id].(status := C.UnderReview)];
      return Ok(C.Done(id));
    }

    method ApproveClaim(e: P.Env, id: nat) returns (r: Result<C.Receipt, C.Error>)
      modifies `claims
      ensures Commits(C.Approve(old(View()), e, id), old(View()), View(), r)
    {
      if e.caller != admin {
        return Err(C.Unauthorized);
      }
      if id !in claims {
        return Err(C.ClaimNotFound);
      }
      if claims[id].status != C.UnderReview {
        return Err(C.InvalidStatus);
      }
      claims := claims[id := claims[id].(status := C.Approved)];
      return Ok(C.Done(id));
    }

    method RejectClaim(e: P.Env, id: nat) returns (r: Result<C.Receipt, C.Error>)
      modifies `claims, `policyActiveClaim
      ensures Commits(C.Reject(old(View()), e, id), old(View()), View(), r)
    {
      if e.caller != admin {
        return Err(C.Unauthorized);
      }
      if id !in claims {
        return Err(C.ClaimNotFound);
      }
      var claim := claims[id];
      if claim.status != C.UnderReview {
        return Err(C.InvalidStatus);
      }
      claims := claims[id := claim.(status := C.Rejected)];
      policyActiveClaim := policyActiveClaim - {claim.policy};
      return Ok(C.Done(id));
    }

    method SettleClaim(e: P.Env, id: nat, pool: C.Pool) returns (r: Result<C.Receipt, C.Error>)
      modifies `claims, `policyActiveClaim
      ensures Commits(C.Settle(old(View()), e, id, pool), old(View()), View(), r)
    {
      if e.caller != admin {
        return Err(C.Unauthorized);
      }
      if id !in claims {
        return Err(C.ClaimNotFound);
      }
      var claim := claims[id];
      if claim.status != C.Approved {
        return Err(C.InvalidStatus);
      }
      if pool.available < claim.amount {
        return Err(C.InsufficientFunds);
      }
      if !pool.pays {
        return Err(C.PayoutFailed);
      }
      claims := claims[id := claim.(status := C.Settled)];
      policyActiveClaim := policyActiveClaim - {claim.policy};
      return Ok(C.Paid(id, claim.claimant, claim.amount));
    }
  }
}
