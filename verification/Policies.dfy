/** The policy registry that the claims contract depends on: issuance, renewal, cancellation
    and expiry, as functions from storage to storage. */
module Policies {
  import opened Common

  type U32 = x: nat | x <= 0xFFFF_FFFF

  datatype Error =
    | PolicyNotFound | Unauthorized | PolicyNotActive | PolicyHasExpired | NotYetExpired

  datatype Status = Active | Renewed | Expired | Cancelled

  datatype Policy = Policy(holder: Address, coverage: int, premium: int, startTime: nat, days: U32, status: Status)

  datatype Registry = Registry(admin: Address, policies: map<nat, Policy>, counter: nat)

  datatype Env = Env(caller: Address, now: nat)

  type Answer = Result<(Registry, nat), Error>

  const SECONDS_PER_DAY: nat := 86_400

  function New(admin: Address): Registry {
    Registry(admin, map[], 0)
  }

  function Expiry(p: Policy): nat {
    WrapU64(p.startTime + p.days * SECONDS_PER_DAY)
  }

  predicate InForce(p: Policy) {
    p.status == Active || p.status == Renewed
  }

  /** What `is_active` answers for a policy that exists. */
  predicate IsActive(p: Policy, now: nat) {
    InForce(p) && now <= Expiry(p)
  }

  function Issue(r: Registry, e: Env, holder: Address, coverage: int, premium: int, days: U32): Answer {
    if e.caller != r.admin then Err(Unauthorized)
    else
      var id := r.counter + 1;
      Ok((r.(counter := id, policies := r.policies[id := Policy(holder, coverage, premium, e.now, days, Active)]), id))
  }

  function Put(r: Registry, id: nat, p: Policy): Registry {
    r.(policies := r.policies[id := p])
  }

  /** Plain 32-bit addition, which wraps around in the release profile. */
  function Longer(days: U32, more: U32): U32 {
    (days + more) % 0x1_0000_0000
  }

  function Renew(r: Registry, e: Env, id: nat, more: U32): Answer {
    if id !in r.policies then Err(PolicyNotFound)
    else
      var p := r.policies[id];
      if e.caller != p.holder then Err(Unauthorized)
      else if !InForce(p) then Err(PolicyNotActive)
      else if e.now > Expiry(p) then Err(PolicyHasExpired)
      else Ok((Put(r, id, p.(days := Longer(p.days, more), status := Renewed)), id))
  }

  function Cancel(r: Registry, e: Env, id: nat): Answer {
    if id !in r.policies then Err(PolicyNotFound)
    else
      var p := r.policies[id];
      if e.caller != p.holder then Err(Unauthorized)
      else if e.now > Expiry(p) then Err(PolicyHasExpired)
      else Ok((Put(r, id, p.(status := Cancelled)), id))
  }

  function Expire(r: Registry, e: Env, id: nat): Answer {
    if id !in r.policies then Err(PolicyNotFound)
    else if e.now < Expiry(r.policies[id]) then Err(NotYetExpired)
    else Ok((Put(r, id, r.policies[id].(status := Expired)), id))
  }
}
