/** The multisig escrow: deposits up to an agreed amount, approvals by configured signers and
    one release, as functions from storage to storage. */
module Escrow {
  import opened Common

  const MAX_PARTICIPANTS: nat := 10

  /** One error per panic message. */
  datatype Error =
    | ZeroAddress | ZeroValue | NotPositive | Paused | Unauthorized | InvalidNonce | TooManyParticipants
    | InvalidConfiguration | NotInTheFuture | EscrowNotFound | InvalidStatus | DepositExceedsAmount
    | TimeLockActive | ThresholdNotMet | AlreadySigned

  datatype Status = Created | Funded | Active | Released | Refunded | Disputed | Cancelled

  datatype Approval = ForRelease | ForRefund | ForOverride

  /** Amounts are signed in the contract; only positive ones are ever stored. */
  datatype Deal = Deal(
    property: nat, buyer: Address, seller: Address, amount: int, deposited: int, status: Status,
    createdAt: nat, timeLock: Option<nat>, participants: seq<Address>)

  datatype MultiSig = MultiSig(required: nat, signers: seq<Address>)

  datatype Deals = Deals(escrows: map<nat, Deal>, configs: map<nat, MultiSig>, count: nat, nonces: map<Address, nat>)

  datatype Approvals = Approvals(signatures: set<(nat, Approval, Address)>, counts: map<(nat, Approval), nat>)

  datatype State = State(admin: Address, paused: bool, deals: Deals, approvals: Approvals)

  datatype Env = Env(caller: Address, now: nat)

  datatype Receipt =
    | Done
    | Opened(id: nat)
    | Funds(id: nat, amount: int)
    | Approved(id: nat, approval: Approval, signer: Address, count: nat)
    | Payment(id: nat, amount: int)

  type Answer = Result<(State, Receipt), Error>

  function Init(admin: Address): Result<State, Error> {
    if admin == ZERO_ADDRESS then Err(ZeroAddress)
    else Ok(State(admin, false, Deals(map[], map[], 0, map[]), Approvals({}, map[])))
  }

  function SetPause(s: State, e: Env, paused: bool): Answer {
    if e.caller == ZERO_ADDRESS then Err(ZeroAddress)
    else if e.caller != s.admin then Err(Unauthorized)
    else Ok((s.(paused := paused), Done))
  }

  datatype Terms = Terms(
    property: nat, amount: int, buyer: Address, seller: Address, participants: seq<Address>, required: nat,
    timeLock: Option<nat>, nonce: nat)

  function CreateFault(s: State, e: Env, t: Terms): Option<Error> {
    if s.paused then Some(Paused)
    else if t.property == 0 then Some(ZeroValue)
    else if t.amount <= 0 then Some(NotPositive)
    else if t.nonce != CountAt(s.deals.nonces, t.buyer) + 1 then Some(InvalidNonce)
    else if |t.participants| > MAX_PARTICIPANTS then Some(TooManyParticipants)
    else if t.required == 0 || t.required > |t.participants| then Some(InvalidConfiguration)
    else if t.buyer == ZERO_ADDRESS || t.seller == ZERO_ADDRESS || ZERO_ADDRESS in t.participants then Some(ZeroAddress)
    else if t.timeLock.Some? && t.timeLock.value <= e.now then Some(NotInTheFuture)
    else None
  }

  function Open(d: Deals, t: Terms, now: nat): Deals {
    var id := d.count + 1;
    Deals(d.escrows[id := Deal(t.property, t.buyer, t.seller, t.amount, 0, Created, now, t.timeLock, t.participants)],
          d.configs[id := MultiSig(t.required, t.participants)],
          id,
          d.nonces[t.buyer := t.nonce])
  }

  function CreateEscrow(s: State, e: Env, t: Terms): Answer {
    var fault := CreateFault(s, e, t);
    if fault.Some? then Err(fault.value)
    else Ok((s.(deals := Open(s.deals, t, e.now)), Opened(s.deals.count + 1)))
  }

  function Put(s: State, id: nat, deal: Deal): State {
    s.(deals := s.deals.(escrows := s.deals.escrows[id := deal]))
  }

  function Fund(deal: Deal, amount: int): Deal {
    deal.(deposited := deal.deposited + amount,
          status := if deal.deposited + amount >= deal.amount then Active else Funded)
  }

  function DepositFunds(s: State, id: nat, amount: int): Answer {
    if s.paused then Err(Paused)
    else if id == 0 then Err(ZeroValue)
    else if amount <= 0 then Err(NotPositive)
    else if id !in s.deals.escrows then Err(EscrowNotFound)
    else
      var deal := s.deals.escrows[id];
      if deal.status != Created && deal.status != Funded then Err(InvalidStatus)
      else if deal.deposited + amount > deal.amount then Err(DepositExceedsAmount)
      else Ok((Put(s, id, Fund(deal, amount)), Funds(id, amount)))
  }

  function ReleaseFunds(s: State, e: Env, id: nat): Answer {
    if s.paused then Err(Paused)
    else if id == 0 then Err(ZeroValue)
    else if id !in s.deals.escrows || id !in s.deals.configs then Err(EscrowNotFound)
    else
      var deal := s.deals.escrows[id];
      if deal.status != Active then Err(InvalidStatus)
      else if deal.timeLock.Some? && e.now < deal.timeLock.value then Err(TimeLockActive)
      else if CountAt(s.approvals.counts, (id, ForRelease)) < s.deals.configs[id].required then Err(ThresholdNotMet)
      else Ok((Put(s, id, deal.(status := Released, deposited := 0)), Payment(id, deal.deposited)))
  }

  function Sign(a: Approvals, id: nat, approval: Approval, signer: Address): Approvals {
    Approvals(a.signatures + {(id, approval, signer)},
              a.counts[(id, approval) := CountAt(a.counts, (id, approval)) + 1])
  }

  function SignApproval(s: State, e: Env, id: nat, approval: Approval): Answer {
    if s.paused then Err(Paused)
    else if id == 0 then Err(ZeroValue)
    else if e.caller == ZERO_ADDRESS then Err(ZeroAddress)
    else if id !in s.deals.configs then Err(EscrowNotFound)
    else if e.caller !in s.deals.configs[id].signers then Err(Unauthorized)
    else if (id, approval, e.caller) in s.approvals.signatures then Err(AlreadySigned)
    else
      Ok((s.(approvals := Sign(s.approvals, id, approval, e.caller)),
          Approved(id, approval, e.caller, CountAt(s.approvals.counts, (id, approval)) + 1)))
  }

  // ---------------------------------------------------------------------------------------
  // Runs
  // ---------------------------------------------------------------------------------------

  datatype Message =
    | MPause(paused: bool)
    | MCreate(terms: Terms)
    | MDeposit(id: nat, amount: int)
    | MRelease(id: nat)
    | MSign(id: nat, approval: Approval)

  function Handle(s: State, e: Env, m: Message): Answer {
    match m
    case MPause(paused) => SetPause(s, e, paused)
    case MCreate(terms) => CreateEscrow(s, e, terms)
    case MDeposit(id, amount) => DepositFunds(s, id, amount)
    case MRelease(id) => ReleaseFunds(s, e, id)
    case MSign(id, approval) => SignApproval(s, e, id, approval)
  }
}
