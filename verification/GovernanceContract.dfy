/** Governance as an object: its storage entries and the messages that update them in place.
    Every method is tied to the function of the same message. */
module GovernanceContract {
  import opened Common
  import opened Governance

  class GovernanceDao {
    const votingPeriod: nat
    var proposalCounter: nat
    var proposals: map<nat, Proposal>
    var voterRecords: map<(nat, Address), Vote>
    var pendingActions: map<nat, Action>

    ghost function View(): State
      reads this
    {
      State(votingPeriod, proposalCounter, proposals, voterRecords, pendingActions)
    }

    constructor (period: nat)
      ensures View() == New(period)
    {
      votingPeriod := period;
      proposalCounter, proposals, voterRecords, pendingActions := 0, map[], map[], map[];
    }

    /** The storage writes every kind of proposal starts with. */
    method FileProposal(e: Env, threshold: nat) returns (id: nat)
      modifies `proposalCounter, `proposals
      ensures View() == Create(old(View()), e, threshold, None).0 && id == proposalCounter
    {
      id := proposalCounter + 1;
      proposalCounter := id;
      proposals := proposals[id := Proposal(e.caller, WrapU64(e.now + votingPeriod), threshold, 0, 0, false, false)];
    }

    method CreateProposal(e: Env, threshold: nat) returns (r: Receipt)
      modifies `proposalCounter, `proposals
      ensures (View(), r) == Create(old(View()), e, threshold, None)
    {
      var id := FileProposal(e, threshold);
      return Filed(id, None);
    }

    /** A slashing proposal stores nothing beyond the proposal; its target is only announced. */
    method CreateSlashingProposal(e: Env, threshold: nat) returns (r: Receipt)
      modifies `proposalCounter, `proposals
      ensures (View(), r) == Create(old(View()), e, threshold, None)
    {
      var id := FileProposal(e, threshold);
      return Filed(id, None);
    }

    method CreateClaimApprovalProposal(e: Env, claim: nat, threshold: nat) returns (r: Receipt)
      modifies `proposalCounter, `proposals, `pendingActions
      ensures (View(), r) == Create(old(View()), e, threshold, Some(ClaimApproval(claim)))
    {
      var id := FileProposal(e, threshold);
      pendingActions := pendingActions[id := ClaimApproval(claim)];
      return Filed(id, Some(ClaimApproval(claim)));
    }

    method CreateFundAllocationProposal(e: Env, recipient: Address, amount: int, threshold: nat) returns (r: Receipt)
      modifies `proposalCounter, `proposals, `pendingActions
      ensures (View(), r) == Create(old(View()), e, threshold, Some(FundAllocation(recipient, amount)))
    {
      var id := FileProposal(e, threshold);
      pendingActions := pendingActions[id := FundAllocation(recipient, amount)];
      return Filed(id, Some(FundAllocation(recipient, amount)));
    }

    method CastVote(e: Env, id: nat, weight: int, yes: bool) returns (r: Result<Receipt, Error>)
      modifies `proposals, `voterRecords
      ensures Commits(Governance.CastVote(old(View()), e, id, weight, yes), old(View()), View(), r)
    {
      hide Wrap;
      if id !in proposals {
        return Err(ProposalNotFound);
      }
      var proposal := proposals[id];
      if e.now > proposal.expiresAt {
        return Err(VotingEnded);
      }
      if (id, e.caller) in voterRecords {
        return Err(AlreadyVoted);
      }
      if yes {
        proposal := proposal.(yes := Wrap(proposal.yes + weight));
      } else {
        proposal := proposal.(no := Wrap(proposal.no + weight));
      }
      proposals := proposals[id := proposal];
      voterRecords := voterRecords[(id, e.caller) := Vote(weight, yes, e.now)];
      return Ok(Voted(id, e.caller));
    }

    method FinalizeProposal(e: Env, id: nat) returns (r: Result<Receipt, Error>)
      modifies `proposals
      ensures Commits(Finalize(old(View()), e, id), old(View()), View(), r)
    {
      if id !in proposals {
        return Err(ProposalNotFound);
      }
      var proposal := proposals[id];
      if e.now <= proposal.expiresAt {
        return Err(VotingNotEnded);
      }
      proposals := proposals[id := proposal.(finalized := true)];
      return Ok(Done);
    }

    method ExecuteProposal(id: nat, accepted: bool) returns (r: Result<Receipt, Error>)
      modifies `proposals, `pendingActions
      ensures Commits(Execute(old(View()), id, accepted), old(View()), View(), r)
    {
      hide Wrap, Quotient;
      if id !in proposals {
        return Err(ProposalNotFound);
      }
      var proposal := proposals[id];
      if !proposal.finalized {
        return Err(NotFinalized);
      }
      if proposal.executed {
        return Err(AlreadyExecuted);
      }
      var total := Wrap(proposal.yes + proposal.no);
      if total == -1 && Wrap(proposal.yes * 100) == I128_MIN {
        return Err(DivisionOverflow);
      }
      if total == 0 || Quotient(Wrap(proposal.yes * 100), total) < proposal.threshold {
        return Err(ThresholdNotMet);
      }
      var action := None;
      if id in pendingActions {
        action := Some(pendingActions[id]);
        if !accepted {
          return Err(CallFailed);
        }
        pendingActions := pendingActions - {id};
      }
      assert pendingActions == old(pendingActions) - {id};
      proposals := proposals[id := proposal.(executed := true)];
      return Ok(Executed(id, action));
    }

    /** The proposals still open to votes, in order. */
    method GetActiveProposals(now: nat) returns (list: seq<nat>)
      ensures forall i, j | 0 <= i < j < |list| :: list[i] < list[j]
      ensures forall id: nat :: id in list <==>
                1 <= id <= proposalCounter && id in proposals && !proposals[id].finalized && now <= proposals[id].expiresAt
    {
      list := [];
      var i := 1;
      while i <= proposalCounter
        invariant 1 <= i <= proposalCounter + 1
        invariant forall j | 0 <= j < |list| :: list[j] < i
        invariant forall j, k | 0 <= j < k < |list| :: list[j] < list[k]
        invariant forall id: nat :: id in list <==>
                    1 <= id < i && id in proposals && !proposals[id].finalized && now <= proposals[id].expiresAt
      {
        if i in proposals && !proposals[i].finalized && now <= proposals[i].expiresAt {
          list := list + [i];
        }
        i := i + 1;
      }
    }
  }
}
