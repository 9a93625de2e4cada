/** The claims contract: one claim at a time per policy, checked against the policy registry and
    paid by the risk pool, as functions from storage to storage. */
module Claims {
  import opened Common
  import P = Policies

  datatype Error =
    | FromRegistry(error: P.Error)
    | PolicyInactive | InvalidAmount | DuplicateClaim | Unauthorized | ClaimNotFound | InvalidStatus
    | InsufficientFunds | PayoutFailed

  datatype Status = Submitted | UnderReview | Approved | Rejected | Settled

  datatype Claim = Claim(policy: nat, claimant: Address, amount: int, status: Status, submittedAt: nat)

  /** `active` is the lock that admits one open claim per policy. */
  datatype Desk = Desk(admin: Address, claims: map<nat, Claim>, counter: nat, active: map<nat, nat>)

  datatype State = State(registry: P.Registry, desk: Desk)

  /** What the risk pool answers: its available capital, and whether it pays. */
  datatype Pool = Pool(available: int, pays: bool)

  datatype Receipt =
    | Done(id: nat)
    | Filed(id: nat, policy: nat)
    | Paid(id: nat, recipient: Address, amount: int)

  type Answer = Result<(State, Receipt), Error>

  function New(registryAdmin: Address, claimsAdmin: Address): State {
    State(P.New(registryAdmin), Desk(claimsAdmin, map[], 0, map[]))
  }

  function SubmitFault(s: State, e: P.Env, policy: nat, amount: int): Option<Error> {
    if policy !in s.registry.policies then Some(FromRegistry(P.PolicyNotFound))
    else
      var p := s.registry.policies[policy];
      if !P.IsActive(p, e.now) then Some(PolicyInactive)
      else if amount <= 0 || amount > p.coverage then Some(InvalidAmount)
      else if policy in s.desk.active then Some(DuplicateClaim)
      else if e.caller != p.holder then Some(Unauthorized)
      else None
  }

  function File(d: Desk, claim: Claim): Desk {
    var id := d.counter + 1;
    d.(counter := id, claims := d.claims[id := claim], active := d.active[claim.policy := id])
  }

  function Submit(s: State, e: P.Env, policy: nat, amount: int): Answer {
    var fault := SubmitFault(s, e, policy, amount);
    if fault.Some? then Err(fault.value)
    else
      var claim := Claim(policy, s.registry.policies[policy].holder, amount, Submitted, e.now);
      Ok((s.(desk := File(s.desk, claim)), Filed(s.desk.counter + 1, policy)))
  }

  /** The checks every admin step starts with. */
  function StepFault(d: Desk, e: P.Env, id: nat, from: Status): Option<Error> {
    if e.caller != d.admin then Some(Unauthorized)
    else if id !in d.claims then Some(ClaimNotFound)
    else if d.claims[id].status != from then Some(InvalidStatus)
    else None
  }

  function Move(d: Desk, id: nat, to: Status): Desk
    requires id in d.claims
  {
    d.(claims := d.claims[id := d.claims[id].(status := to)])
  }

  /** Moves a claim to a final status and lifts its policy's lock. */
  function Close(d: Desk, id: nat, to: Status): Desk
    requires id in d.claims
  {
    Move(d, id, to).(active := d.active - {d.claims[id].policy})
  }

  function StartReview(s: State, e: P.Env, id: nat): Answer {
    var fault := StepFault(s.desk, e, id, Submitted);
    if fault.Some? then Err(fault.value) else Ok((s.(desk := Move(s.desk, id, UnderReview)), Done(id)))
  }

  function Approve(s: State, e: P.Env, id: nat): Answer {
    var fault := StepFault(s.desk, e, id, UnderReview);
    if fault.Some? then Err(fault.value) else Ok((s.(desk := Move(s.desk, id, Approved)), Done(id)))
  }

  function Reject(s: State, e: P.Env, id: nat): Answer {
    var fault := StepFault(s.desk, e, id, UnderReview);
    if fault.Some? then Err(fault.value) else Ok((s.(desk := Close(s.desk, id, Rejected)), Done(id)))
  }

  function Settle(s: State, e: P.Env, id: nat, pool: Pool): Answer {
    var fault := StepFault(s.desk, e, id, Approved);
    if fault.Some? then Err(fault.value)
    else
      var claim := s.desk.claims[id];
      if pool.available < claim.amount then Err(InsufficientFunds)
      else if !pool.pays then Err(PayoutFailed)
      else Ok((s.(desk := Close(s.desk, id, Settled)), Paid(id, claim.claimant, claim.amount)))
  }

  // ---------------------------------------------------------------------------------------
  // Runs of the two contracts together
  // ---------------------------------------------------------------------------------------

  datatype Message =
    | MIssue(holder: Address, coverage: int, premium: int, days: P.U32)
    | MRenew(policy: nat, more: P.U32)
    | MCancel(policy: nat)
    | MExpire(policy: nat)
    | MSubmit(policy: nat, amount: int)
    | MStartReview(id: nat)
    | MApprove(id: nat)
    | MReject(id: nat)
    | MSettle(id: nat, pool: Pool)

  function Lift(s: State, answer: P.Answer): Answer {
    match answer
    case Ok((registry, id)) => Ok((s.(registry := registry), Done(id)))
    case Err(error) => Err(FromRegistry(error))
  }

  function Handle(s: State, e: P.Env, m: Message): Answer {
    match m
    case MIssue(holder, coverage, premium, days) => Lift(s, P.Issue(s.registry, e, holder, coverage, premium, days))
    case MRenew(policy, more) => Lift(s, P.Renew(s.registry, e, policy, more))
    case MCancel(policy) => Lift(s, P.Cancel(s.registry, e, policy))
    case MExpire(policy) => Lift(s, P.Expire(s.registry, e, policy))
    case MSubmit(policy, amount) => Submit(s, e, policy, amount)
    case MStartReview(id) => StartReview(s, e, id)
    case MApprove(id) => Approve(s, e, id)
    case MReject(id) => Reject(s, e, id)
    case MSettle(id, pool) => Settle(s, e, id, pool)
  }
}
