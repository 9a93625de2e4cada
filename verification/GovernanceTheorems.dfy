/** What every run of governance keeps: tallies are the sums of the vote records, nothing moves
    after finalization, and each proposal executes and dispatches its action at most once. */
module GovernanceTheorems {
  import opened Common
  import opened Governance

  /** The action each proposal was filed with, what was dispatched for it, how often it was
      executed, and the time of the latest message. */
  datatype Ledger = Ledger(filed: map<nat, Action>, dispatched: map<nat, seq<Action>>, executions: map<nat, nat>, clock: nat)

  function Post(g: Ledger, r: Receipt): Ledger {
    match r
    case Filed(id, action) => if action.Some? then g.(filed := g.filed[id := action.value]) else g
    case Executed(id, action) =>
      g.(executions := g.executions[id := CountAt(g.executions, id) + 1],
         dispatched := if action.Some? then g.dispatched[id := ListAt(g.dispatched, id) + [action.value]]
                       else g.dispatched)
    case _ => g
  }

  // ---------------------------------------------------------------------------------------
  // The threshold test
  // ---------------------------------------------------------------------------------------

  lemma WrapFits(x: int)
    ensures Fits(Wrap(x)) && (Wrap(x) == x <==> Fits(x))
  {
  }

  lemma WrapAdds(x: int, y: int)
    ensures Wrap(Wrap(x) + y) == Wrap(x + y)
  {
  }

  /** Truncation only matters below zero: for a positive divisor the quotient reaches a
      threshold exactly when the product does, but a threshold of zero is also met by the
      negative values that truncate to zero. */
  lemma QuotientReaches(x: int, y: int, t: nat)
    requires y > 0
    ensures Quotient(x, y) >= t <==> x >= t * y || (t == 0 && -y < x)
  {
    if x >= 0 {
      FloorReaches(x, y, t);
    } else if t > 0 {
      assert t * y >= 0;
    }
  }

  lemma FloorReaches(x: nat, y: nat, t: nat)
    requires y > 0
    ensures x / y >= t <==> x >= t * y
  {
    var q := x / y;
    assert q * y <= x < q * y + y;
    if q >= t {
      ProductOrdered(t, q, y);
    } else {
      ProductOrdered(q + 1, t, y);
    }
  }

  lemma QuotientNegates(x: int, y: int)
    requires y != 0
    ensures Quotient(-x, -y) == Quotient(x, y)
  {
  }

  /** The exact meaning of the threshold test when nothing wraps. A negative total, which only
      negative weights can produce, turns the comparison round. */
  lemma PassingMeans(p: Proposal)
    requires Fits(p.yes + p.no) && Fits(p.yes * 100) && !DivisionOverflows(p)
    ensures var total := p.yes + p.no;
            && (total > 0 ==> (Passes(p) <==> p.yes * 100 >= p.threshold * total || (p.threshold == 0 && p.yes * 100 > -total)))
            && (total < 0 ==> (Passes(p) <==> p.yes * 100 <= p.threshold * total || (p.threshold == 0 && p.yes * 100 < -total)))
            && (total == 0 ==> !Passes(p))
  {
    hide Quotient;
    WrapFits(p.yes + p.no);
    WrapFits(p.yes * 100);
    var total := p.yes + p.no;
    if total > 0 {
      QuotientReaches(p.yes * 100, total, p.threshold);
    } else if total < 0 {
      QuotientNegates(p.yes * 100, total);
      QuotientReaches(-(p.yes * 100), -total, p.threshold);
      assert p.threshold * -total == -(p.threshold * total);
    }
  }

  /** With non-negative tallies the test asks for the promised share of a non-empty vote. */
  lemma PassingIsAMajority(p: Proposal)
    requires p.yes >= 0 && p.no >= 0 && Fits(p.yes + p.no) && Fits(p.yes * 100)
    ensures Passes(p) <==> p.yes + p.no > 0 && p.yes * 100 >= p.threshold * (p.yes + p.no)
  {
    hide Passes, DivisionOverflows;
    NoDivisionOverflow(p);
    PassingMeans(p);
    assert p.threshold == 0 ==> p.threshold * (p.yes + p.no) == 0;
  }

  lemma NoDivisionOverflow(p: Proposal)
    requires p.yes >= 0 && p.no >= 0 && Fits(p.yes + p.no) && Fits(p.yes * 100)
    ensures !DivisionOverflows(p)
  {
    WrapFits(p.yes + p.no);
  }

  /** Negative weights defeat the threshold: a single negative yes vote passes the proposal. */
  lemma NegativeWeightsPass(creator: Address, weight: int)
    requires weight < 0 && Fits(weight * 100)
    ensures Passes(Proposal(creator, 0, 51, weight, 0, true, false))
  {
    var p := Proposal(creator, 0, 51, weight, 0, true, false);
    WrapFits(weight);
    WrapFits(weight * 100);
    assert Quotient(weight * 100, weight) == 100;
  }

  // ---------------------------------------------------------------------------------------
  // Tallies
  // ---------------------------------------------------------------------------------------

  /** The weight a record adds to one side of one proposal. */
  function Side(id: nat, yes: bool): ((nat, Address), Vote) -> int {
    (k: (nat, Address), v: Vote) => if k.0 == id && v.yes == yes then v.weight else 0
  }

  ghost predicate Tallied(s: State) {
    && (forall id: nat | id in s.proposals ::
          && s.proposals[id].yes == Wrap(SumBy(s.votes, Side(id, true)))
          && s.proposals[id].no == Wrap(SumBy(s.votes, Side(id, false))))
    && (forall id: nat :: id in s.proposals <==> 1 <= id <= s.counter)
    && (forall k: (nat, Address) | k in s.votes :: k.0 in s.proposals)
  }

  lemma {:induction false} NoVotesNoWeight(votes: map<(nat, Address), Vote>, id: nat, yes: bool)
    requires forall k: (nat, Address) | k in votes :: k.0 != id
    ensures SumBy(votes, Side(id, yes)) == 0
  {
    SumCongruent<(nat, Address), Vote>(votes, Side(id, yes), Nothing());
    SumOfNothing(votes);
  }

  function Nothing(): ((nat, Address), Vote) -> int {
    (k: (nat, Address), v: Vote) => 0
  }

  lemma {:induction false} SumOfNothing(votes: map<(nat, Address), Vote>)
    ensures SumBy(votes, Nothing()) == 0
    decreases |votes|
  {
    if votes != map[] {
      var k :| k in votes;
      SumRemove<(nat, Address), Vote>(votes, k, Nothing());
      SumOfNothing(votes - {k});
    }
  }

  lemma RecordAdds(votes: map<(nat, Address), Vote>, k: (nat, Address), v: Vote, id: nat, yes: bool)
    requires k !in votes
    ensures SumBy(votes[k := v], Side(id, yes)) == SumBy(votes, Side(id, yes)) + if k.0 == id && v.yes == yes then v.weight else 0
  {
    SumInsert<(nat, Address), Vote>(votes, k, v, Side(id, yes));
  }

  lemma VoteTallied(s: State, e: Env, id: nat, weight: int, yes: bool)
    requires Tallied(s) && CastVote(s, e, id, weight, yes).Ok?
    ensures Tallied(CastVote(s, e, id, weight, yes).value.0)
  {
    hide Wrap, SumBy;
    var s' := CastVote(s, e, id, weight, yes).value.0;
    forall j: nat | j in s'.proposals
      ensures s'.proposals[j].yes == Wrap(SumBy(s'.votes, Side(j, true)))
      ensures s'.proposals[j].no == Wrap(SumBy(s'.votes, Side(j, false)))
    {
      RecordAdds(s.votes, (id, e.caller), Vote(weight, yes, e.now), j, true);
      RecordAdds(s.votes, (id, e.caller), Vote(weight, yes, e.now), j, false);
      WrapAdds(SumBy(s.votes, Side(j, yes)), weight);
    }
  }

  lemma CreateTallied(s: State, e: Env, threshold: nat, action: Option<Action>)
    requires Tallied(s)
    ensures Tallied(Create(s, e, threshold, action).0)
  {
    hide Wrap;
    var id := s.counter + 1;
    NoVotesNoWeight(s.votes, id, true);
    NoVotesNoWeight(s.votes, id, false);
    WrapFits(0);
  }

  lemma FlagsTallied(s: State, s': State)
    requires Tallied(s) && s'.votes == s.votes && s'.counter == s.counter
    requires s'.proposals.Keys == s.proposals.Keys
    requires forall id: nat | id in s.proposals ::
               s'.proposals[id].yes == s.proposals[id].yes && s'.proposals[id].no == s.proposals[id].no
    ensures Tallied(s')
  {
  }

  // ---------------------------------------------------------------------------------------
  // Execution
  // ---------------------------------------------------------------------------------------

  function Lookup<T>(m: map<nat, T>, id: nat): Option<T> {
    if id in m then Some(m[id]) else None
  }

  /** A finalized proposal is past its deadline, an executed one is finalized and passed, and
      its action was dispatched when it executed and not before. */
  ghost predicate ProposalSound(p: Proposal, clock: nat, pending: Option<Action>, filed: Option<Action>,
                                dispatched: seq<Action>, executions: nat) {
    && (p.finalized ==> clock > p.expiresAt)
    && (p.executed ==> p.finalized && Passes(p))
    && executions == Bit(p.executed)
    && pending == (if p.executed then None else filed)
    && dispatched == (if p.executed && filed.Some? then [filed.value] else [])
  }

  ghost predicate SoundAt(s: State, g: Ledger, id: nat)
    requires id in s.proposals
  {
    ProposalSound(s.proposals[id], g.clock, Lookup(s.pending, id), Lookup(g.filed, id), ListAt(g.dispatched, id),
                  CountAt(g.executions, id))
  }

  ghost predicate ProposalsSound(s: State, g: Ledger) {
    && (forall id: nat :: id in s.proposals <==> 1 <= id <= s.counter)
    && (forall id: nat | id in s.proposals :: SoundAt(s, g, id))
    && (forall id: nat | id !in s.proposals ::
          id !in s.pending && id !in g.filed && id !in g.dispatched && id !in g.executions)
  }

  // ---------------------------------------------------------------------------------------
  // Every run on a clock that does not go back
  // ---------------------------------------------------------------------------------------

  datatype Call = Call(env: Env, message: Message)

  datatype World = World(s: State, g: Ledger)

  function Exec(w: World, c: Call): World {
    match Handle(w.s, c.env, c.message)
    case Ok((s, r)) => World(s, Post(w.g, r).(clock := c.env.now))
    case Err(_) => World(w.s, w.g.(clock := c.env.now))
  }

  function Run(votingPeriod: nat, calls: seq<Call>): World {
    if calls == [] then World(New(votingPeriod), Ledger(map[], map[], map[], 0))
    else Exec(Run(votingPeriod, calls[..|calls| - 1]), calls[|calls| - 1])
  }

  ghost predicate Forward(calls: seq<Call>) {
    forall i, j | 0 <= i <= j < |calls| :: calls[i].env.now <= calls[j].env.now
  }

  lemma {:induction false} ClockIsLatest(votingPeriod: nat, calls: seq<Call>)
    requires Forward(calls)
    ensures forall i | 0 <= i < |calls| :: calls[i].env.now <= Run(votingPeriod, calls).g.clock
    ensures calls == [] ==> Run(votingPeriod, calls).g.clock == 0
    ensures calls != [] ==> Run(votingPeriod, calls).g.clock == calls[|calls| - 1].env.now
  {
    hide Handle, Post;
  }

  lemma Later(s: State, g: Ledger, now: nat)
    requires ProposalsSound(s, g) && g.clock <= now
    ensures ProposalsSound(s, g.(clock := now))
  {
    hide Passes;
    forall id: nat | id in s.proposals ensures SoundAt(s, g.(clock := now), id) {
      assert SoundAt(s, g, id);
    }
  }

  lemma CreateSound(s: State, g: Ledger, e: Env, threshold: nat, action: Option<Action>)
    requires ProposalsSound(s, g)
    ensures var (s', r) := Create(s, e, threshold, action); ProposalsSound(s', Post(g, r))
  {
    hide Passes;
    var (s', r) := Create(s, e, threshold, action);
    forall id: nat | id in s'.proposals ensures SoundAt(s', Post(g, r), id) {
      if id != s.counter + 1 {
        assert SoundAt(s, g, id);
      }
    }
  }

  lemma VoteSound(s: State, g: Ledger, e: Env, id: nat, weight: int, yes: bool)
    requires ProposalsSound(s, g) && g.clock <= e.now && CastVote(s, e, id, weight, yes).Ok?
    ensures ProposalsSound(CastVote(s, e, id, weight, yes).value.0, g)
  {
    hide Passes, Wrap;
    var s' := CastVote(s, e, id, weight, yes).value.0;
    forall j: nat | j in s'.proposals ensures SoundAt(s', g, j) {
      assert SoundAt(s, g, j);
    }
  }

  lemma FinalizeSound(s: State, g: Ledger, e: Env, id: nat)
    requires ProposalsSound(s, g) && g.clock <= e.now && Finalize(s, e, id).Ok?
    ensures ProposalsSound(Finalize(s, e, id).value.0, g.(clock := e.now))
  {
    hide Wrap, Quotient;
    var s' := Finalize(s, e, id).value.0;
    forall j: nat | j in s'.proposals ensures SoundAt(s', g.(clock := e.now), j) {
      assert SoundAt(s, g, j);
    }
  }

  lemma ExecuteSound(s: State, g: Ledger, id: nat, accepted: bool)
    requires ProposalsSound(s, g) && Execute(s, id, accepted).Ok?
    ensures var (s', r) := Execute(s, id, accepted).value; ProposalsSound(s', Post(g, r))
  {
    hide Wrap, Quotient;
    var (s', r) := Execute(s, id, accepted).value;
    forall j: nat | j in s'.proposals ensures SoundAt(s', Post(g, r), j) {
      assert SoundAt(s, g, j);
    }
  }

  lemma ExecSound(w: World, c: Call)
    requires ProposalsSound(w.s, w.g) && w.g.clock <= c.env.now
    ensures ProposalsSound(Exec(w, c).s, Exec(w, c).g)
  {
    hide ProposalsSound, CastVote, Finalize, Execute, Create;
    Later(w.s, w.g, c.env.now);
    var g := w.g.(clock := c.env.now);
    match c.message
    case MCreate(threshold, action) => CreateSound(w.s, g, c.env, threshold, action);
    case MVote(id, weight, yes) =>
      if CastVote(w.s, c.env, id, weight, yes).Ok? {
        VoteSound(w.s, g, c.env, id, weight, yes);
        VoteReceipt(w.s, c.env, id, weight, yes);
      }
    case MFinalize(id) =>
      if Finalize(w.s, c.env, id).Ok? {
        FinalizeSound(w.s, g, c.env, id);
        FinalizeReceipt(w.s, c.env, id);
      }
    case MExecute(id, accepted) =>
      if Execute(w.s, id, accepted).Ok? {
        ExecuteSound(w.s, g, id, accepted);
      }
  }

  lemma VoteReceipt(s: State, e: Env, id: nat, weight: int, yes: bool)
    requires CastVote(s, e, id, weight, yes).Ok?
    ensures CastVote(s, e, id, weight, yes).value.1.Voted?
  {
  }

  lemma FinalizeReceipt(s: State, e: Env, id: nat)
    requires Finalize(s, e, id).Ok?
    ensures Finalize(s, e, id).value.1 == Done
  {
  }

  lemma ExecTallied(w: World, c: Call)
    requires Tallied(w.s)
    ensures Tallied(Exec(w, c).s)
  {
    hide Tallied, Wrap, Passes, Create, CastVote;
    match c.message
    case MCreate(threshold, action) => CreateTallied(w.s, c.env, threshold, action);
    case MVote(id, weight, yes) =>
      if CastVote(w.s, c.env, id, weight, yes).Ok? {
        VoteTallied(w.s, c.env, id, weight, yes);
      }
    case _ => FlagsTallied(w.s, Exec(w, c).s);
  }

  /** Tallies do not even need the clock. */
  lemma {:induction false} RunTallied(votingPeriod: nat, calls: seq<Call>)
    ensures Tallied(Run(votingPeriod, calls).s)
  {
    hide Exec;
    if calls != [] {
      RunTallied(votingPeriod, calls[..|calls| - 1]);
      ExecTallied(Run(votingPeriod, calls[..|calls| - 1]), calls[|calls| - 1]);
    }
  }

  lemma {:induction false} RunSound(votingPeriod: nat, calls: seq<Call>)
    requires Forward(calls)
    ensures ProposalsSound(Run(votingPeriod, calls).s, Run(votingPeriod, calls).g)
  {
    hide Exec, SoundAt;
    if calls != [] {
      var before := calls[..|calls| - 1];
      ClockIsLatest(votingPeriod, before);
      RunSound(votingPeriod, before);
      ExecSound(Run(votingPeriod, before), calls[|calls| - 1]);
    }
  }

  /** The tallies of a proposal are the sums of its vote records, taken modulo 2^128. */
  lemma EveryRunTalliesTheRecords(votingPeriod: nat, calls: seq<Call>, id: nat)
    requires id in Run(votingPeriod, calls).s.proposals
    ensures var s := Run(votingPeriod, calls).s;
            && s.proposals[id].yes == Wrap(SumBy(s.votes, Side(id, true)))
            && s.proposals[id].no == Wrap(SumBy(s.votes, Side(id, false)))
  {
    hide Run, Wrap;
    RunTallied(votingPeriod, calls);
  }

  /** A proposal executes at most once, only after finalization and with its threshold met on
      its present tallies; the action it was filed with is dispatched by that execution, once,
      and stays pending until then. */
  lemma EveryRunExecutesOnce(votingPeriod: nat, calls: seq<Call>, id: nat)
    requires Forward(calls) && id in Run(votingPeriod, calls).s.proposals
    ensures var w := Run(votingPeriod, calls);
            var p := w.s.proposals[id];
            && CountAt(w.g.executions, id) == Bit(p.executed)
            && (p.executed ==> p.finalized && Passes(p))
            && ListAt(w.g.dispatched, id) == (if p.executed && id in w.g.filed then [w.g.filed[id]] else [])
            && Lookup(w.s.pending, id) == (if p.executed then None else Lookup(w.g.filed, id))
  {
    hide Run, Passes;
    RunSound(votingPeriod, calls);
    assert SoundAt(Run(votingPeriod, calls).s, Run(votingPeriod, calls).g, id);
  }

  ghost predicate NoNegativeWeights(s: State) {
    forall k: (nat, Address) | k in s.votes :: s.votes[k].weight >= 0
  }

  /** When no recorded weight is negative and the sums leave room, an executed proposal had
      the promised share of the weight that was cast, and some was. */
  lemma EveryExecutedProposalWon(votingPeriod: nat, calls: seq<Call>, id: nat)
    requires Forward(calls) && id in Run(votingPeriod, calls).s.proposals
    requires NoNegativeWeights(Run(votingPeriod, calls).s)
    requires var votes := Run(votingPeriod, calls).s.votes;
             Fits(SumBy(votes, Side(id, true)) + SumBy(votes, Side(id, false))) && Fits(SumBy(votes, Side(id, true)) * 100)
    ensures var s := Run(votingPeriod, calls).s;
            var yes, no := SumBy(s.votes, Side(id, true)), SumBy(s.votes, Side(id, false));
            s.proposals[id].executed ==> yes + no > 0 && yes * 100 >= s.proposals[id].threshold * (yes + no)
  {
    hide Run, Passes, Wrap;
    EveryRunExecutesOnce(votingPeriod, calls, id);
    EveryRunTalliesTheRecords(votingPeriod, calls, id);
    var s := Run(votingPeriod, calls).s;
    SumTerm<(nat, Address), Vote>(s.votes, Side(id, true));
    SumTerm<(nat, Address), Vote>(s.votes, Side(id, false));
    WrapFits(SumBy(s.votes, Side(id, true)));
    WrapFits(SumBy(s.votes, Side(id, false)));
    PassingIsAMajority(s.proposals[id]);
  }

  lemma StepFreezes(w: World, c: Call, id: nat)
    requires id in w.s.proposals && id <= w.s.counter && c.env.now > w.s.proposals[id].expiresAt
    ensures var p, s' := w.s.proposals[id], Exec(w, c).s;
            && id in s'.proposals && id <= s'.counter
            && s'.proposals[id] == p.(finalized := s'.proposals[id].finalized, executed := s'.proposals[id].executed)
            && (p.finalized ==> s'.proposals[id].finalized) && (p.executed ==> s'.proposals[id].executed)
            && (forall a: Address :: (id, a) in s'.votes <==> (id, a) in w.s.votes)
  {
    hide Passes, Wrap, Post;
  }

  /** Once a proposal is finalized its tallies and voters never change again. */
  lemma {:induction false} FinalizedTalliesAreFrozen(votingPeriod: nat, calls: seq<Call>, k: nat, id: nat)
    requires Forward(calls) && k <= |calls|
    requires var s := Run(votingPeriod, calls[..k]).s; id in s.proposals && s.proposals[id].finalized
    ensures var s, s' := Run(votingPeriod, calls[..k]).s, Run(votingPeriod, calls).s;
            && id in s'.proposals && id <= s'.counter && s'.proposals[id].finalized
            && s'.proposals[id].yes == s.proposals[id].yes && s'.proposals[id].no == s.proposals[id].no
            && s'.proposals[id].expiresAt == s.proposals[id].expiresAt
            && (s.proposals[id].executed ==> s'.proposals[id].executed)
            && (forall a: Address :: (id, a) in s'.votes <==> (id, a) in s.votes)
  {
    hide Exec, Passes;
    if k == |calls| {
      assert calls[..k] == calls;
      RunSound(votingPeriod, calls);
    } else {
      var before, c := calls[..|calls| - 1], calls[|calls| - 1];
      assert before[..k] == calls[..k];
      FinalizedTalliesAreFrozen(votingPeriod, before, k, id);
      RunSound(votingPeriod, before);
      var w := Run(votingPeriod, before);
      assert SoundAt(w.s, w.g, id);
      ClockIsLatest(votingPeriod, before);
      StepFreezes(w, c, id);
    }
  }

  // ---------------------------------------------------------------------------------------
  // A negative vote
  // ---------------------------------------------------------------------------------------

  /** Filing, one yes vote, finalization after the deadline, execution. */
  function LoneVote(votingPeriod: nat, a: Address, weight: int): seq<Call> {
    [Call(Env(a, 0), MCreate(51, None))] + [Call(Env(a, 0), MVote(1, weight, true))]
    + [Call(Env(a, votingPeriod + 1), MFinalize(1))] + [Call(Env(a, votingPeriod + 1), MExecute(1, true))]
  }

  lemma RunThen(votingPeriod: nat, calls: seq<Call>, c: Call)
    ensures Run(votingPeriod, calls + [c]) == Exec(Run(votingPeriod, calls), c)
  {
    hide Exec;
    assert (calls + [c])[..|calls + [c]| - 1] == calls;
  }

  /** The run that executes a proposal nobody supported: its one vote has negative weight. */
  lemma NegativeVoteExecutes(votingPeriod: nat, a: Address, weight: int)
    requires votingPeriod <= U64_MAX && weight < 0 && Fits(weight * 100)
    ensures var s := Run(votingPeriod, LoneVote(votingPeriod, a, weight)).s;
            1 in s.proposals && s.proposals[1].executed && s.proposals[1].yes == weight && s.proposals[1].no == 0
  {
    hide Run, Post, Passes, DivisionOverflows;
    var create, vote := Call(Env(a, 0), MCreate(51, None)), Call(Env(a, 0), MVote(1, weight, true));
    var finalize, execute := Call(Env(a, votingPeriod + 1), MFinalize(1)), Call(Env(a, votingPeriod + 1), MExecute(1, true));
    NewRun(votingPeriod);
    assert [] + [create] == [create];
    RunThen(votingPeriod, [], create);
    RunThen(votingPeriod, [create], vote);
    RunThen(votingPeriod, [create] + [vote], finalize);
    RunThen(votingPeriod, [create] + [vote] + [finalize], execute);
    WrapFits(weight);
    NegativePasses(Run(votingPeriod, [create] + [vote] + [finalize]).s.proposals[1], weight);
  }

  lemma NewRun(votingPeriod: nat)
    ensures Run(votingPeriod, []).s == New(votingPeriod)
  {
  }

  lemma NegativePasses(p: Proposal, weight: int)
    requires weight < 0 && Fits(weight * 100) && p.yes == weight && p.no == 0 && p.threshold == 51
    ensures Passes(p) && !DivisionOverflows(p)
  {
    NegativeWeightsPass(p.creator, weight);
  }
}
