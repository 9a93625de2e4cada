/** The governance contract: proposals, weighted votes, finalization and one-shot execution of
    a pending action, as functions from storage to storage. */
module Governance {
  import opened Common

  /** One error per panic message; `CallFailed` is the failure of the contract an action calls
      and `DivisionOverflow` the one quotient that does not fit. */
  datatype Error =
    | ProposalNotFound | VotingEnded | AlreadyVoted | VotingNotEnded | NotFinalized | AlreadyExecuted
    | ThresholdNotMet | CallFailed | DivisionOverflow

  const I128_MIN: int := -0x8000_0000_0000_0000_0000_0000_0000_0000
  const I128_MAX: int := 0x7FFF_FFFF_FFFF_FFFF_FFFF_FFFF_FFFF_FFFF

  /** Signed 128-bit arithmetic wraps around in the release profile. */
  function Wrap(x: int): int {
    (x - I128_MIN) % (I128_MAX - I128_MIN + 1) + I128_MIN
  }

  predicate Fits(x: int) {
    I128_MIN <= x <= I128_MAX
  }

  /** Division that rounds towards zero. */
  function Quotient(x: int, y: int): int
    requires y != 0
  {
    if x >= 0 then (if y > 0 then x / y else -(x / -y))
    else (if y > 0 then -(-x / y) else -x / -y)
  }

  datatype Action = ClaimApproval(claim: nat) | FundAllocation(recipient: Address, amount: int) | PolicyChange(policy: nat)

  datatype Proposal = Proposal(
    creator: Address, expiresAt: nat, threshold: nat, yes: int, no: int, finalized: bool, executed: bool)

  datatype Vote = Vote(weight: int, yes: bool, time: nat)

  datatype State = State(
    votingPeriod: nat, counter: nat, proposals: map<nat, Proposal>, votes: map<(nat, Address), Vote>,
    pending: map<nat, Action>)

  datatype Env = Env(caller: Address, now: nat)

  datatype Receipt =
    | Done
    | Filed(id: nat, action: Option<Action>)
    | Voted(id: nat, voter: Address)
    | Executed(id: nat, action: Option<Action>)

  type Answer = Result<(State, Receipt), Error>

  function New(votingPeriod: nat): State {
    State(votingPeriod, 0, map[], map[], map[])
  }

  /** Files a proposal, with the action its execution will dispatch if it has one. */
  function Create(s: State, e: Env, threshold: nat, action: Option<Action>): (State, Receipt) {
    var id := s.counter + 1;
    var p := Proposal(e.caller, WrapU64(e.now + s.votingPeriod), threshold, 0, 0, false, false);
    (s.(counter := id,
        proposals := s.proposals[id := p],
        pending := if action.Some? then s.pending[id := action.value] else s.pending),
     Filed(id, action))
  }

  function Tally(p: Proposal, weight: int, yes: bool): Proposal {
    if yes then p.(yes := Wrap(p.yes + weight)) else p.(no := Wrap(p.no + weight))
  }

  function CastVote(s: State, e: Env, id: nat, weight: int, yes: bool): Answer {
    if id !in s.proposals then Err(ProposalNotFound)
    else if e.now > s.proposals[id].expiresAt then Err(VotingEnded)
    else if (id, e.caller) in s.votes then Err(AlreadyVoted)
    else
      Ok((s.(proposals := s.proposals[id := Tally(s.proposals[id], weight, yes)],
             votes := s.votes[(id, e.caller) := Vote(weight, yes, e.now)]),
          Voted(id, e.caller)))
  }

  function Finalize(s: State, e: Env, id: nat): Answer {
    if id !in s.proposals then Err(ProposalNotFound)
    else if e.now <= s.proposals[id].expiresAt then Err(VotingNotEnded)
    else Ok((s.(proposals := s.proposals[id := s.proposals[id].(finalized := true)]), Done))
  }

  function Total(p: Proposal): int {
    Wrap(p.yes + p.no)
  }

  /** The one quotient of the threshold test that overflows. */
  predicate DivisionOverflows(p: Proposal) {
    Wrap(p.yes * 100) == I128_MIN && Total(p) == -1
  }

  predicate Passes(p: Proposal) {
    Total(p) != 0 && !DivisionOverflows(p) && Quotient(Wrap(p.yes * 100), Total(p)) >= p.threshold
  }

  function ExecuteFault(s: State, id: nat, accepted: bool): Option<Error> {
    if id !in s.proposals then Some(ProposalNotFound)
    else if !s.proposals[id].finalized then Some(NotFinalized)
    else if s.proposals[id].executed then Some(AlreadyExecuted)
    else if DivisionOverflows(s.proposals[id]) then Some(DivisionOverflow)
    else if !Passes(s.proposals[id]) then Some(ThresholdNotMet)
    else if id in s.pending && !accepted then Some(CallFailed)
    else None
  }

  /** `accepted` says whether the called contract accepts a dispatched action. */
  function Execute(s: State, id: nat, accepted: bool): Answer {
    var fault := ExecuteFault(s, id, accepted);
    if fault.Some? then Err(fault.value)
    else
      Ok((s.(proposals := s.proposals[id := s.proposals[id].(executed := true)], pending := s.pending - {id}),
          Executed(id, if id in s.pending then Some(s.pending[id]) else None)))
  }

  // ---------------------------------------------------------------------------------------
  // Runs
  // ---------------------------------------------------------------------------------------

  /** `MCreate` covers the four ways to file a proposal: without an action (general and
      slashing), for a claim, and for funds. */
  datatype Message =
    | MCreate(threshold: nat, action: Option<Action>)
    | MVote(id: nat, weight: int, yes: bool)
    | MFinalize(id: nat)
    | MExecute(id: nat, accepted: bool)

  function Handle(s: State, e: Env, m: Message): Answer {
    match m
    case MCreate(threshold, action) => Ok(Create(s, e, threshold, action))
    case MVote(id, weight, yes) => CastVote(s, e, id, weight, yes)
    case MFinalize(id) => Finalize(s, e, id)
    case MExecute(id, accepted) => Execute(s, id, accepted)
  }
}
