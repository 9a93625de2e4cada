/** What governance asks of a message and what it does in return: who can vote until when, what
    a vote adds, when a proposal is finalized and executed, and what nobody can change. */
module GovernanceRules {
  import opened Common
  import opened Governance
  import opened GovernanceTheorems

  /** Only proposal `id` is rewritten, and keeps its terms. */
  ghost predicate OnlyProposal(s: State, s': State, id: nat) {
    && s'.votingPeriod == s.votingPeriod && s'.counter == s.counter
    && s'.proposals.Keys == s.proposals.Keys && id in s.proposals
    && (forall j: nat | j in s.proposals && j != id :: s'.proposals[j] == s.proposals[j])
    && var p, p' := s.proposals[id], s'.proposals[id];
    && p'.creator == p.creator && p'.expiresAt == p.expiresAt && p'.threshold == p.threshold
  }

  /** A proposal is filed under the next number, on the terms asked for and with its action, open
      for one voting period. */
  lemma FilingRule(votingPeriod: nat, calls: seq<Call>, e: Env, threshold: nat, action: Option<Action>)
    requires Forward(calls)
    ensures var s := Run(votingPeriod, calls).s;
            var (s', r), id := Create(s, e, threshold, action), s.counter + 1;
            && r == Filed(id, action) && id !in s.proposals && id !in s.pending
            && s'.counter == id && s'.votes == s.votes && s'.votingPeriod == s.votingPeriod == votingPeriod
            && s'.proposals.Keys == s.proposals.Keys + {id}
            && (forall j: nat | j in s.proposals :: s'.proposals[j] == s.proposals[j])
            && (forall j: nat | j in s.pending :: j in s'.pending && s'.pending[j] == s.pending[j])
            && Lookup(s'.pending, id) == action && s'.pending.Keys <= s.pending.Keys + {id}
            && var p := s'.proposals[id];
            && p.creator == e.caller && p.threshold == threshold && p.yes == 0 && p.no == 0 && !p.finalized && !p.executed
            && (e.now + votingPeriod <= U64_MAX ==> p.expiresAt == e.now + votingPeriod)
  {
    hide Run, SoundAt;
    RunSound(votingPeriod, calls);
    SamePeriod(votingPeriod, calls);
  }

  lemma {:induction false} SamePeriod(votingPeriod: nat, calls: seq<Call>)
    ensures Run(votingPeriod, calls).s.votingPeriod == votingPeriod
  {
    hide Passes, Post, Wrap;
    if calls != [] {
      SamePeriod(votingPeriod, calls[..|calls| - 1]);
    }
  }

  /** Every account votes at most once on a proposal, until its deadline; the vote is put on record
      with its time and adds its weight to its own side, as long as that fits. */
  lemma VotingRule(s: State, e: Env, id: nat, weight: int, yes: bool)
    ensures CastVote(s, e, id, weight, yes).Ok?
            <==> id in s.proposals && e.now <= s.proposals[id].expiresAt && (id, e.caller) !in s.votes
    ensures CastVote(s, e, id, weight, yes).Ok? ==>
              var (s', r) := CastVote(s, e, id, weight, yes).value;
              var p, p' := s.proposals[id], s'.proposals[id];
              && r == Voted(id, e.caller) && OnlyProposal(s, s', id) && s'.pending == s.pending
              && s'.votes.Keys == s.votes.Keys + {(id, e.caller)}
              && (forall k: (nat, Address) | k in s.votes :: s'.votes[k] == s.votes[k])
              && s'.votes[(id, e.caller)].weight == weight && s'.votes[(id, e.caller)].yes == yes
              && s'.votes[(id, e.caller)].time == e.now
              && p'.finalized == p.finalized && p'.executed == p.executed
              && (yes ==> p'.no == p.no && (Fits(p.yes + weight) ==> p'.yes == p.yes + weight))
              && (!yes ==> p'.yes == p.yes && (Fits(p.no + weight) ==> p'.no == p.no + weight))
  {
    hide Wrap;
    if CastVote(s, e, id, weight, yes).Ok? {
      if yes && Fits(s.proposals[id].yes + weight) {
        WrapFits(s.proposals[id].yes + weight);
      }
      if !yes && Fits(s.proposals[id].no + weight) {
        WrapFits(s.proposals[id].no + weight);
      }
    }
  }

  /** Anybody finalizes a proposal after its deadline and nobody before; nothing else changes. */
  lemma FinalizingRule(s: State, e: Env, id: nat)
    ensures Finalize(s, e, id).Ok? <==> id in s.proposals && s.proposals[id].expiresAt < e.now
    ensures Finalize(s, e, id).Ok? ==>
              var (s', r) := Finalize(s, e, id).value;
              && r == Done && OnlyProposal(s, s', id) && s'.votes == s.votes && s'.pending == s.pending
              && s'.proposals[id] == s.proposals[id].(finalized := true)
  {
  }

  /** With non-negative tallies that leave room, a proposal is executed by anybody exactly when it
      is finalized, was not executed before, has the promised share of a non-empty vote, and
      its action, if it has one, is accepted; this reports the action and uses it up. */
  lemma ExecutionRule(s: State, id: nat, accepted: bool)
    requires id in s.proposals ==>
               var p := s.proposals[id]; p.yes >= 0 && p.no >= 0 && Fits(p.yes + p.no) && Fits(p.yes * 100)
    ensures Execute(s, id, accepted).Ok?
            <==> && id in s.proposals && s.proposals[id].finalized && !s.proposals[id].executed
                 && s.proposals[id].yes + s.proposals[id].no > 0
                 && s.proposals[id].yes * 100 >= s.proposals[id].threshold * (s.proposals[id].yes + s.proposals[id].no)
                 && (id in s.pending ==> accepted)
    ensures Execute(s, id, accepted).Ok? ==>
              var (s', r) := Execute(s, id, accepted).value;
              && r == Executed(id, Lookup(s.pending, id)) && OnlyProposal(s, s', id) && s'.votes == s.votes
              && s'.proposals[id] == s.proposals[id].(executed := true)
              && Lookup(s'.pending, id) == None
              && (forall j: nat | j != id :: Lookup(s'.pending, j) == Lookup(s.pending, j))
  {
    hide Wrap, Passes, DivisionOverflows;
    if id in s.proposals {
      var p := s.proposals[id];
      PassingIsAMajority(p);
      NoOverflow(p);
    }
  }

  lemma NoOverflow(p: Proposal)
    requires p.yes >= 0 && p.no >= 0 && Fits(p.yes + p.no)
    ensures !DivisionOverflows(p)
  {
    hide Wrap;
    WrapFits(p.yes + p.no);
  }

  /** The test is only without an answer when its quotient does not fit 128 bits, and an execution
      that gets that far then panics. */
  lemma OverflowRule(s: State, id: nat, accepted: bool)
    requires id in s.proposals && s.proposals[id].finalized && !s.proposals[id].executed
    ensures var p := s.proposals[id];
            Execute(s, id, accepted) == Err(DivisionOverflow)
            <==> Total(p) != 0 && !Fits(Quotient(Wrap(p.yes * 100), Total(p)))
  {
    hide Wrap, Quotient;
    var p := s.proposals[id];
    WrapWithin(p.yes * 100);
    WrapWithin(p.yes + p.no);
    if Total(p) != 0 {
      QuotientFits(Wrap(p.yes * 100), Total(p));
    }
  }

  lemma WrapWithin(x: int)
    ensures Fits(Wrap(x))
  {
  }

  lemma QuotientFits(x: int, y: int)
    requires Fits(x) && Fits(y) && y != 0
    ensures Fits(Quotient(x, y)) <==> !(x == I128_MIN && y == -1)
  {
    var a, b := if x >= 0 then x else -x, if y >= 0 then y else -y;
    NatQuotient(a, b);
  }

  /** A quotient of naturals is at most the dividend, and half of it when the divisor is not one. */
  lemma NatQuotient(a: nat, b: nat)
    requires b > 0
    ensures 0 <= a / b <= a && (b == 1 ==> a / b == a) && (b > 1 ==> 2 * (a / b) <= a)
  {
    var q := a / b;
    assert q * b <= a;
    ProductOrdered(if b > 1 then 2 else 1, b, q);
  }

  // ---------------------------------------------------------------------------------------
  // Every run
  // ---------------------------------------------------------------------------------------

  /** Every record is of a proposal and from before its deadline. */
  ghost predicate Timely(s: State) {
    && (forall k: (nat, Address) | k in s.votes :: k.0 in s.proposals && s.votes[k].time <= s.proposals[k.0].expiresAt)
    && (forall id: nat | id in s.proposals :: id <= s.counter)
  }

  lemma StepTimely(w: World, c: Call)
    requires Timely(w.s)
    ensures Timely(Exec(w, c).s)
    ensures forall k: (nat, Address) | k in w.s.votes :: k in Exec(w, c).s.votes && Exec(w, c).s.votes[k] == w.s.votes[k]
  {
    hide Passes, Wrap, Post;
  }

  /** In every continuation a vote stays on record as it was cast, and it was cast in time. */
  lemma {:induction false} VotesStay(votingPeriod: nat, calls: seq<Call>, k: nat)
    requires k <= |calls|
    ensures var s, s' := Run(votingPeriod, calls[..k]).s, Run(votingPeriod, calls).s;
            && Timely(s')
            && (forall v: (nat, Address) | v in s.votes :: v in s'.votes && s'.votes[v] == s.votes[v])
  {
    hide Exec, Timely;
    if calls == [] {
      NewIsTimely(votingPeriod);
    } else {
      var before, c := calls[..|calls| - 1], calls[|calls| - 1];
      if k == |calls| {
        assert calls[..k] == calls;
        VotesStay(votingPeriod, before, |before|);
      } else {
        assert before[..k] == calls[..k];
        VotesStay(votingPeriod, before, k);
      }
      StepTimely(Run(votingPeriod, before), c);
    }
  }

  lemma NewIsTimely(votingPeriod: nat)
    ensures Timely(Run(votingPeriod, []).s)
  {
  }
}
