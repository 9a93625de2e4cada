/** What every run of the bridge keeps: how often a request can execute, what the bounded
    history forgets, and what nonces count. */
module BridgeTheorems {
  import opened Common
  import opened Bridge

  /** Executions of each request since it was last retried, and everything each sender ever
      executed, oldest first. */
  datatype Ledger = Ledger(since: map<nat, nat>, log: map<Address, seq<Transaction>>)

  const NO_LEDGER: Ledger := Ledger(map[], map[])

  function Post(g: Ledger, r: Receipt): Ledger {
    match r
    case Executed(id, tx) =>
      Ledger(g.since[id := CountAt(g.since, id) + 1], g.log[tx.sender := ListAt(g.log, tx.sender) + [tx]])
    case Recovered(id, action) => if action == RetryBridge then g.(since := g.since[id := 0]) else g
    case _ => g
  }

  // ---------------------------------------------------------------------------------------
  // Signatures and executions
  // ---------------------------------------------------------------------------------------

  /** Distinct signatures; locked only with enough of them; and each execution since the last
      retry, like the lock itself, was paid for by one signature from the required number on. */
  ghost predicate RequestSound(request: Request, executions: nat) {
    && NoDuplicates(request.signatures)
    && request.required > 0
    && (request.status == Locked ==> |request.signatures| >= request.required)
    && executions + Bit(request.status == Locked) <= Pos(|request.signatures| - request.required + 1)
    && (executions > 0 ==> |request.signatures| >= request.required)
    && request.status != Expired && request.status != InTransit
  }

  ghost predicate DeskSound(d: Desk, g: Ledger) {
    && (forall id: nat :: id in d.requests <==> 1 <= id <= d.counter)
    && (forall id: nat | id in d.requests :: RequestSound(d.requests[id], CountAt(g.since, id)))
    && (forall id: nat | id in g.since :: id in d.requests)
  }

  lemma SignSound(request: Request, executions: nat, operator: Address, approve: bool)
    requires RequestSound(request, executions) && operator !in request.signatures
    ensures RequestSound(AddSignature(request, operator, approve), executions)
  {
  }

  lemma ExecuteSound(request: Request, executions: nat)
    requires RequestSound(request, executions) && request.status == Locked
    ensures RequestSound(request.(status := Completed), executions + 1)
  {
  }

  lemma RetrySound(request: Request, executions: nat)
    requires RequestSound(request, executions) && request.status == Failed
    ensures RequestSound(request.(status := Pending, signatures := []), 0)
    ensures RequestSound(request.(status := Failed), executions)
  {
  }

  /** Rewriting one request soundly keeps the desk sound. */
  lemma PutSound(d: Desk, g: Ledger, id: nat, request: Request, since: map<nat, nat>)
    requires DeskSound(d, g) && id in d.requests
    requires RequestSound(request, CountAt(since, id))
    requires since == g.since || since == g.since[id := CountAt(since, id)]
    ensures DeskSound(d.(requests := d.requests[id := request]), g.(since := since))
  {
    hide RequestSound;
    var d', g' := d.(requests := d.requests[id := request]), g.(since := since);
    forall j: nat | j in d'.requests ensures RequestSound(d'.requests[j], CountAt(g'.since, j)) {
      if j != id {
        assert RequestSound(d.requests[j], CountAt(g.since, j));
      }
    }
  }

  lemma FileSound(d: Desk, g: Ledger, sender: Address, nonce: nat, request: Request)
    requires DeskSound(d, g) && request.signatures == [] && request.required > 0 && request.status == Pending
    ensures DeskSound(File(d, sender, nonce, request), g)
  {
    var d' := File(d, sender, nonce, request);
    forall j: nat | j in d'.requests ensures RequestSound(d'.requests[j], CountAt(g.since, j)) {
      if j != d.counter + 1 {
        assert RequestSound(d.requests[j], CountAt(g.since, j));
      }
    }
  }

  // ---------------------------------------------------------------------------------------
  // Nonces
  // ---------------------------------------------------------------------------------------

  function SentBy(a: Address): (nat, Request) -> int {
    (id: nat, request: Request) => if request.sender == a then 1 else 0
  }

  function Nonces(): (Address, nat) -> int {
    (a: Address, nonce: nat) => nonce
  }

  ghost predicate Counted(d: Desk) {
    && (forall a: Address :: SumBy(d.requests, SentBy(a)) == CountAt(d.nonces, a))
    && SumBy(d.nonces, Nonces()) == d.counter
  }

  lemma FileCounted(d: Desk, sender: Address, nonce: nat, request: Request)
    requires Counted(d) && nonce == CountAt(d.nonces, sender) + 1 && request.sender == sender
    requires d.counter + 1 !in d.requests
    ensures Counted(File(d, sender, nonce, request))
  {
    var d' := File(d, sender, nonce, request);
    forall a: Address ensures SumBy(d'.requests, SentBy(a)) == CountAt(d'.nonces, a) {
      SumInsert<nat, Request>(d.requests, d.counter + 1, request, SentBy(a));
    }
    SumInsert<Address, nat>(d.nonces, sender, nonce, Nonces());
  }

  lemma PutCounted(d: Desk, id: nat, request: Request)
    requires Counted(d) && id in d.requests && request.sender == d.requests[id].sender
    ensures Counted(d.(requests := d.requests[id := request]))
  {
    forall a: Address ensures SumBy(d.requests[id := request], SentBy(a)) == CountAt(d.nonces, a) {
      SumInsert<nat, Request>(d.requests, id, request, SentBy(a));
    }
  }

  // ---------------------------------------------------------------------------------------
  // History
  // ---------------------------------------------------------------------------------------

  /** The last `n` entries of a list, or all of a shorter one. */
  function Last<T>(s: seq<T>, n: nat): seq<T> {
    if |s| <= n then s else s[|s| - n..]
  }

  lemma RememberKeepsLast(log: seq<Transaction>, tx: Transaction)
    ensures Remember(Last(log, MAX_HISTORY_ITEMS), tx) == Last(log + [tx], MAX_HISTORY_ITEMS)
  {
    if |log| >= MAX_HISTORY_ITEMS {
      assert Last(log, MAX_HISTORY_ITEMS)[1..] + [tx] == (log + [tx])[|log| + 1 - MAX_HISTORY_ITEMS..];
    }
  }

  /** Ids rise along the log, none is from the future, and each entry copies its request. */
  ghost predicate LogSound(log: seq<Transaction>, sender: Address, counter: nat, requests: map<nat, Request>) {
    && (forall i, j | 0 <= i < j < |log| :: log[i].id < log[j].id)
    && (forall i | 0 <= i < |log| ::
          && 1 <= log[i].id <= counter && log[i].sender == sender && log[i].request in requests
          && Copies(log[i], requests[log[i].request]))
  }

  ghost predicate Copies(tx: Transaction, request: Request) {
    tx.token == request.token && tx.destination == request.destination && tx.sender == request.sender
    && tx.recipient == request.recipient && tx.metadata == request.metadata
  }

  /** The identity of a request: what signing, executing and recovering never change. */
  ghost predicate SameOrder(r: Request, r': Request) {
    && r'.token == r.token && r'.destination == r.destination && r'.sender == r.sender && r'.recipient == r.recipient
    && r'.required == r.required && r'.createdAt == r.createdAt && r'.expiresAt == r.expiresAt
    && r'.metadata == r.metadata
  }

  function Entries(): (Address, seq<Transaction>) -> int {
    (a: Address, log: seq<Transaction>) => |log|
  }

  ghost predicate ArchiveSound(a: Archive, requests: map<nat, Request>, g: Ledger) {
    && (forall x: Address :: ListAt(a.history, x) == Last(ListAt(g.log, x), MAX_HISTORY_ITEMS))
    && (forall x: Address :: LogSound(ListAt(g.log, x), x, a.counter, requests))
    && SumBy(g.log, Entries()) == a.counter
  }

  ghost predicate KeepsOrders(requests: map<nat, Request>, requests': map<nat, Request>) {
    forall id: nat | id in requests :: id in requests' && SameOrder(requests[id], requests'[id])
  }

  lemma OrdersOnly(a: Archive, requests: map<nat, Request>, requests': map<nat, Request>, g: Ledger)
    requires ArchiveSound(a, requests, g) && KeepsOrders(requests, requests')
    ensures ArchiveSound(a, requests', g)
  {
    forall x: Address ensures LogSound(ListAt(g.log, x), x, a.counter, requests') {
      assert LogSound(ListAt(g.log, x), x, a.counter, requests);
    }
  }

  lemma LogGrows(log: seq<Transaction>, sender: Address, counter: nat, requests: map<nat, Request>, tx: Transaction)
    requires LogSound(log, sender, counter, requests)
    requires tx.id == counter + 1 && tx.sender == sender && tx.request in requests && Copies(tx, requests[tx.request])
    ensures LogSound(log + [tx], sender, counter + 1, requests)
  {
  }

  lemma RecordSound(a: Archive, requests: map<nat, Request>, g: Ledger, id: nat, time: nat)
    requires ArchiveSound(a, requests, g) && id in requests
    ensures var tx := TransactionFor(requests[id], id, a.counter + 1, time);
            ArchiveSound(Record(a, id, tx), requests, Post(g, Executed(id, tx)))
  {
    hide LogSound, Last, Remember;
    var tx := TransactionFor(requests[id], id, a.counter + 1, time);
    var a', g' := Record(a, id, tx), Post(g, Executed(id, tx));
    var log := ListAt(g.log, tx.sender);
    forall x: Address
      ensures ListAt(a'.history, x) == Last(ListAt(g'.log, x), MAX_HISTORY_ITEMS)
      ensures LogSound(ListAt(g'.log, x), x, a'.counter, requests)
    {
      assert LogSound(ListAt(g.log, x), x, a.counter, requests);
      if x == tx.sender {
        RememberKeepsLast(log, tx);
        LogGrows(log, x, a.counter, requests, tx);
      } else {
        LogLater(ListAt(g.log, x), x, a.counter, requests);
      }
    }
    SumInsert<Address, seq<Transaction>>(g.log, tx.sender, log + [tx], Entries());
  }

  lemma LogLater(log: seq<Transaction>, sender: Address, counter: nat, requests: map<nat, Request>)
    requires LogSound(log, sender, counter, requests)
    ensures LogSound(log, sender, counter + 1, requests)
  {
  }

  // ---------------------------------------------------------------------------------------
  // Operators
  // ---------------------------------------------------------------------------------------

  ghost predicate SetupSound(p: Setup) {
    NoDuplicates(p.operators) && |p.operators| <= MAX_OPERATORS && p.config.minSignatures > 0
  }

  lemma {:induction false} WithoutShorter<T(!new)>(s: seq<T>, x: T)
    ensures |Without(s, x)| <= |s|
  {
    if s != [] {
      WithoutShorter(s[..|s| - 1], x);
    }
  }

  lemma OperatorsSound(s: State, e: Env, operator: Address)
    requires SetupSound(s.setup)
    ensures AddOperator(s, e, operator).Ok? ==> SetupSound(AddOperator(s, e, operator).value.0.setup)
    ensures RemoveOperator(s, e, operator).Ok? ==> SetupSound(RemoveOperator(s, e, operator).value.0.setup)
  {
    hide Without;
    WithoutNoDuplicates(s.setup.operators, operator);
    WithoutShorter(s.setup.operators, operator);
  }

  // ---------------------------------------------------------------------------------------
  // Every run
  // ---------------------------------------------------------------------------------------

  datatype Call = Call(env: Env, message: Message)

  datatype World = World(s: State, g: Ledger)

  function Exec(w: World, c: Call): World {
    match Handle(w.s, c.env, c.message)
    case Ok((s, r)) => World(s, Post(w.g, r))
    case Err(_) => w
  }

  function Run(start: State, calls: seq<Call>): World {
    if calls == [] then World(start, NO_LEDGER)
    else Exec(Run(start, calls[..|calls| - 1]), calls[|calls| - 1])
  }

  ghost predicate Good(w: World) {
    && SetupSound(w.s.setup)
    && DeskSound(w.s.desk, w.g)
    && Counted(w.s.desk)
    && ArchiveSound(w.s.archive, w.s.desk.requests, w.g)
  }

  lemma LogsOnly(d: Desk, g: Ledger, log: map<Address, seq<Transaction>>)
    requires DeskSound(d, g)
    ensures DeskSound(d, g.(log := log))
  {
  }

  lemma InitiateGood(w: World, e: Env, order: Order, feePaid: bool)
    requires Good(w)
    ensures Good(Exec(w, Call(e, MInitiate(order, feePaid))))
  {
    hide ArchiveSound, Counted, File, NoDuplicates;
    var d := w.s.desk;
    if InitiateFault(w.s, e, order, feePaid).None? {
      var request := Request(order.token, order.destination, e.caller, order.recipient, order.required, [],
                             e.block, Deadline(e.block, order.timeout), Pending, order.metadata);
      FileSound(d, w.g, e.caller, order.nonce, request);
      FileCounted(d, e.caller, order.nonce, request);
      FileKeepsOrders(d, e.caller, order.nonce, request);
      OrdersOnly(w.s.archive, d.requests, File(d, e.caller, order.nonce, request).requests, w.g);
    }
  }

  lemma FileKeepsOrders(d: Desk, sender: Address, nonce: nat, request: Request)
    requires d.counter + 1 !in d.requests
    ensures KeepsOrders(d.requests, File(d, sender, nonce, request).requests)
  {
  }

  lemma PutGood(w: World, id: nat, request: Request, since: map<nat, nat>)
    requires Good(w) && id in w.s.desk.requests && SameOrder(w.s.desk.requests[id], request)
    requires RequestSound(request, CountAt(since, id))
    requires since == w.g.since || since == w.g.since[id := CountAt(since, id)]
    ensures Good(World(Put(w.s, id, request), w.g.(since := since)))
  {
    hide SetupSound, DeskSound, Counted, ArchiveSound, RequestSound;
    PutSound(w.s.desk, w.g, id, request, since);
    PutCounted(w.s.desk, id, request);
    OrdersOnly(w.s.archive, w.s.desk.requests, w.s.desk.requests[id := request], w.g);
    SinceOnly(w.s.archive, w.s.desk.requests[id := request], w.g, since);
  }

  lemma SinceOnly(a: Archive, requests: map<nat, Request>, g: Ledger, since: map<nat, nat>)
    requires ArchiveSound(a, requests, g)
    ensures ArchiveSound(a, requests, g.(since := since))
  {
  }

  lemma RequestKnown(w: World, id: nat)
    requires Good(w) && id in w.s.desk.requests
    ensures RequestSound(w.s.desk.requests[id], CountAt(w.g.since, id))
  {
  }

  lemma SignGood(w: World, e: Env, id: nat, approve: bool)
    requires Good(w)
    ensures Good(Exec(w, Call(e, MSign(id, approve))))
  {
    hide Good, RequestSound, Put;
    if Sign(w.s, e, id, approve).Ok? {
      RequestKnown(w, id);
      SignSound(w.s.desk.requests[id], CountAt(w.g.since, id), e.caller, approve);
      PutGood(w, id, AddSignature(w.s.desk.requests[id], e.caller, approve), w.g.since);
    }
  }

  lemma RecoverGood(w: World, e: Env, id: nat, action: Recovery)
    requires Good(w)
    ensures Good(Exec(w, Call(e, MRecover(id, action))))
  {
    hide Good, RequestSound, Put;
    if Recover(w.s, e, id, action).Ok? {
      RequestKnown(w, id);
      var request := w.s.desk.requests[id];
      NeverExpired(request, CountAt(w.g.since, id));
      RetrySound(request, CountAt(w.g.since, id));
      if action == RetryBridge {
        PutGood(w, id, request.(status := Pending, signatures := []), w.g.since[id := 0]);
      } else {
        PutGood(w, id, request.(status := Failed), w.g.since);
      }
    }
  }

  lemma NeverExpired(request: Request, executions: nat)
    requires RequestSound(request, executions)
    ensures request.status != Expired
  {
  }

  lemma ExecuteGood(w: World, e: Env, id: nat)
    requires Good(w)
    ensures Good(Exec(w, Call(e, MExecute(id))))
  {
    hide Good, RequestSound, Put, Record;
    if Execute(w.s, e, id).Ok? {
      RequestKnown(w, id);
      var request := w.s.desk.requests[id];
      ExecuteSound(request, CountAt(w.g.since, id));
      var done := request.(status := Completed);
      var w1 := World(Put(w.s, id, done), w.g.(since := w.g.since[id := CountAt(w.g.since, id) + 1]));
      PutGood(w, id, done, w1.g.since);
      PutStores(w.s, id, done);
      RecordGood(w1, w.g, id, e.time);
    }
  }

  lemma PutStores(s: State, id: nat, request: Request)
    ensures Put(s, id, request).desk.requests == s.desk.requests[id := request]
    ensures Put(s, id, request).archive == s.archive
  {
  }

  lemma RecordGood(w: World, g: Ledger, id: nat, time: nat)
    requires Good(w) && id in w.s.desk.requests && w.g == g.(since := g.since[id := CountAt(g.since, id) + 1])
    ensures var tx := TransactionFor(w.s.desk.requests[id], id, w.s.archive.counter + 1, time);
            Good(World(w.s.(archive := Record(w.s.archive, id, tx)), Post(g, Executed(id, tx))))
  {
    hide SetupSound, DeskSound, Counted, ArchiveSound, Record;
    var tx := TransactionFor(w.s.desk.requests[id], id, w.s.archive.counter + 1, time);
    var g' := Post(g, Executed(id, tx));
    SinceOnly(w.s.archive, w.s.desk.requests, w.g, g.since);
    RecordSound(w.s.archive, w.s.desk.requests, g, id, time);
    LogsOnly(w.s.desk, w.g, g'.log);
  }

  lemma SetupGood(w: World, e: Env, paused: bool, operator: Address)
    requires Good(w)
    ensures Good(Exec(w, Call(e, MPause(paused)))) && Good(Exec(w, Call(e, MAdd(operator))))
    ensures Good(Exec(w, Call(e, MRemove(operator))))
  {
    hide SetupSound, DeskSound, Counted, ArchiveSound, Without;
    OperatorsSound(w.s, e, operator);
    PauseSound(w.s.setup, paused);
  }

  lemma PauseSound(p: Setup, paused: bool)
    requires SetupSound(p)
    ensures SetupSound(p.(config := p.config.(paused := paused)))
  {
  }

  lemma ExecGood(w: World, c: Call)
    requires Good(w)
    ensures Good(Exec(w, c))
  {
    hide Good, Exec;
    var e := c.env;
    match c.message
    case MInitiate(order, feePaid) => InitiateGood(w, e, order, feePaid);
    case MSign(id, approve) => SignGood(w, e, id, approve);
    case MExecute(id) => ExecuteGood(w, e, id);
    case MRecover(id, action) => RecoverGood(w, e, id, action);
    case MPause(paused) => SetupGood(w, e, paused, 0);
    case MAdd(operator) => SetupGood(w, e, false, operator);
    case MRemove(operator) => SetupGood(w, e, false, operator);
  }

  lemma InitGood(admin: Address, config: Config)
    requires Init(admin, config).Ok?
    ensures Good(World(Init(admin, config).value, NO_LEDGER))
  {
  }

  lemma {:induction false} RunGood(start: State, calls: seq<Call>)
    requires Good(World(start, NO_LEDGER))
    ensures Good(Run(start, calls))
  {
    hide Good, Exec;
    if calls != [] {
      RunGood(start, calls[..|calls| - 1]);
      ExecGood(Run(start, calls[..|calls| - 1]), calls[|calls| - 1]);
    }
  }

  /** Signatures are pairwise distinct, a locked request holds the required number, and a
      request executes at most once for each signature from the required number on. */
  lemma EveryRunBoundsExecutions(admin: Address, config: Config, calls: seq<Call>, id: nat)
    requires Init(admin, config).Ok?
    requires id in Run(Init(admin, config).value, calls).s.desk.requests
    ensures var w := Run(Init(admin, config).value, calls);
            var request := w.s.desk.requests[id];
            && NoDuplicates(request.signatures)
            && (request.status == Locked ==> |request.signatures| >= request.required)
            && CountAt(w.g.since, id) <= Pos(|request.signatures| - request.required + 1)
            && (request.status == Locked ==> CountAt(w.g.since, id) <= |request.signatures| - request.required)
  {
    hide Run, Init, SetupSound, Counted, ArchiveSound;
    InitGood(admin, config);
    RunGood(Init(admin, config).value, calls);
  }

  /** The stored history of a sender is the last fifty of everything it executed, ids rising,
      and each entry agrees with the request it came from. */
  lemma EveryRunKeepsTheLatestHistory(admin: Address, config: Config, calls: seq<Call>, sender: Address)
    requires Init(admin, config).Ok?
    ensures var w := Run(Init(admin, config).value, calls);
            && ListAt(w.s.archive.history, sender) == Last(ListAt(w.g.log, sender), MAX_HISTORY_ITEMS)
            && LogSound(ListAt(w.g.log, sender), sender, w.s.archive.counter, w.s.desk.requests)
            && SumBy(w.g.log, Entries()) == w.s.archive.counter
  {
    hide Run, Init, SetupSound, DeskSound, Counted, LogSound, Last;
    InitGood(admin, config);
    RunGood(Init(admin, config).value, calls);
  }

  /** A sender's nonce is the number of its requests, and the request counter is the sum of
      all nonces. */
  lemma EveryRunCountsRequests(admin: Address, config: Config, calls: seq<Call>, sender: Address)
    requires Init(admin, config).Ok?
    ensures var d := Run(Init(admin, config).value, calls).s.desk;
            && CountAt(d.nonces, sender) == SumBy(d.requests, SentBy(sender))
            && d.counter == SumBy(d.nonces, Nonces())
            && (forall id: nat :: id in d.requests <==> 1 <= id <= d.counter)
  {
    hide Run, Init, SetupSound, RequestSound, ArchiveSound;
    InitGood(admin, config);
    RunGood(Init(admin, config).value, calls);
  }

  lemma EveryRunBoundsOperators(admin: Address, config: Config, calls: seq<Call>)
    requires Init(admin, config).Ok?
    ensures var operators := Run(Init(admin, config).value, calls).s.setup.operators;
            NoDuplicates(operators) && |operators| <= MAX_OPERATORS
  {
    hide Run, Init, DeskSound, Counted, ArchiveSound;
    InitGood(admin, config);
    RunGood(Init(admin, config).value, calls);
  }

  // ---------------------------------------------------------------------------------------
  // Execution is not unique
  // ---------------------------------------------------------------------------------------

  /** Signing does not look at the status, so a further operator's approval locks a request
      that already reached its required number, completed or rejected, and it executes (again). */
  lemma OneMoreApprovalExecutes(s: State, sign: Env, execute: Env, id: nat)
    requires OperatorFault(s, sign, id).None? && OperatorFault(s, execute, id).None?
    requires var request := s.desk.requests[id];
             && sign.caller !in request.signatures
             && (request.expiresAt.Some? ==> sign.block <= request.expiresAt.value)
             && |request.signatures| + 1 >= request.required
    ensures var signed := Sign(s, sign, id, true);
            && signed.Ok? && signed.value.0.desk.requests[id].status == Locked
            && Execute(signed.value.0, execute, id).Ok?
  {
    hide Record;
  }

  /** Conversely, an execution needs a lock, and only such an approval locks. */
  lemma OnlyAnApprovalLocks(s: State, e: Env, m: Message, id: nat)
    requires Handle(s, e, m).Ok? && id in s.desk.requests && s.desk.requests[id].status != Locked
    requires id <= s.desk.counter
    ensures var requests := Handle(s, e, m).value.0.desk.requests;
            && id in requests
            && (requests[id].status == Locked <==>
                  m == MSign(id, true) && |s.desk.requests[id].signatures| + 1 >= s.desk.requests[id].required)
  {
    hide Record, Without, InitiateFault;
  }

  // ---------------------------------------------------------------------------------------
  // Rejections count
  // ---------------------------------------------------------------------------------------

  /** Approving and rejecting signatures of a request since it was last retried. */
  datatype Tally = Tally(approvals: nat, rejections: nat)

  function Count(t: Tally, id: nat, r: Receipt): Tally {
    match r
    case Signed(i, approve) =>
      if i != id then t
      else if approve then t.(approvals := t.approvals + 1) else t.(rejections := t.rejections + 1)
    case Recovered(i, action) => if i == id && action == RetryBridge then Tally(0, 0) else t
    case _ => t
  }

  function TallyStep(t: Tally, id: nat, s: State, c: Call): Tally {
    match Handle(s, c.env, c.message)
    case Ok((_, r)) => Count(t, id, r)
    case Err(_) => t
  }

  function TallyOf(start: State, calls: seq<Call>, id: nat): Tally {
    if calls == [] then Tally(0, 0)
    else
      var before := calls[..|calls| - 1];
      TallyStep(TallyOf(start, before, id), id, Run(start, before).s, calls[|calls| - 1])
  }

  ghost predicate TallySound(d: Desk, id: nat, t: Tally) {
    if id in d.requests then
      var request := d.requests[id];
      && |request.signatures| == t.approvals + t.rejections
      && (request.status == Locked || request.status == Completed ==> t.approvals >= 1)
    else t == Tally(0, 0)
  }

  lemma StepTallies(w: World, c: Call, id: nat, t: Tally)
    requires TallySound(w.s.desk, id, t) && w.s.desk.counter + 1 !in w.s.desk.requests
    ensures TallySound(Exec(w, c).s.desk, id, TallyStep(t, id, w.s, c))
  {
    hide Post, InitiateFault, Record, Without, Deadline;
  }

  lemma {:induction false} RunTallies(start: State, calls: seq<Call>, id: nat)
    requires Good(World(start, NO_LEDGER)) && id !in start.desk.requests
    ensures TallySound(Run(start, calls).s.desk, id, TallyOf(start, calls, id))
  {
    hide Good, Exec, TallyStep;
    if calls != [] {
      var before := calls[..|calls| - 1];
      RunTallies(start, before, id);
      RunGood(start, before);
      NextIsNew(Run(start, before));
      StepTallies(Run(start, before), calls[|calls| - 1], id, TallyOf(start, before, id));
    }
  }

  lemma NextIsNew(w: World)
    requires Good(w)
    ensures w.s.desk.counter + 1 !in w.s.desk.requests
  {
  }

  /** The required number counts rejections as well: a locked or completed request has one
      approval for sure, and the required number of them exactly when its rejections leave
      room for it among its signatures. */
  lemma EveryRunCountsRejections(admin: Address, config: Config, calls: seq<Call>, id: nat)
    requires Init(admin, config).Ok?
    requires id in Run(Init(admin, config).value, calls).s.desk.requests
    ensures var start := Init(admin, config).value;
            var request, t := Run(start, calls).s.desk.requests[id], TallyOf(start, calls, id);
            && |request.signatures| == t.approvals + t.rejections
            && (request.status == Locked || request.status == Completed ==> t.approvals >= 1)
            && (request.required <= t.approvals <==> t.rejections + request.required <= |request.signatures|)
  {
    hide Run, TallyOf, Good;
    InitGood(admin, config);
    RunTallies(Init(admin, config).value, calls, id);
  }

  const TWO_SIGNERS: Config := Config([1], 2, 2, 10, 1, false, 0)

  const ORDER: Order := Order(1, 1, 4, 2, None, Metadata(1, 1), 1)

  function By(caller: Address, m: Message): Call {
    Call(Env(caller, 0, 0), m)
  }

  lemma RunThen(start: State, calls: seq<Call>, c: Call)
    ensures Run(start, calls + [c]) == Exec(Run(start, calls), c)
    ensures TallyOf(start, calls + [c], 1) == TallyStep(TallyOf(start, calls, 1), 1, Run(start, calls).s, c)
  {
    hide Exec, TallyStep;
    assert (calls + [c])[..|calls + [c]| - 1] == calls;
  }

  const ASKED: seq<Call> := [By(1, MAdd(2))] + [By(3, MInitiate(ORDER, true))]

  lemma Asks()
    ensures var start := Init(1, TWO_SIGNERS).value;
            var s := Run(start, ASKED).s;
            && s.setup.operators == [1, 2] && !s.setup.config.paused
            && s.desk.requests == map[1 := Request(1, 1, 3, 4, 2, [], 0, None, Pending, Metadata(1, 1))]
            && TallyOf(start, ASKED, 1) == Tally(0, 0)
  {
    hide Run, TallyOf, Post;
    var start := Init(1, TWO_SIGNERS).value;
    NothingRun(start);
    assert [] + [By(1, MAdd(2))] == [By(1, MAdd(2))];
    RunThen(start, [], By(1, MAdd(2)));
    RunThen(start, [By(1, MAdd(2))], By(3, MInitiate(ORDER, true)));
  }

  lemma NothingRun(start: State)
    ensures Run(start, []).s == start && TallyOf(start, [], 1) == Tally(0, 0)
  {
  }

  /** A request that needs two signatures executes on one rejection and one approval. */
  lemma RejectedRequestExecutes()
    ensures var start := Init(1, TWO_SIGNERS).value;
            var calls := ASKED + [By(1, MSign(1, false))] + [By(2, MSign(1, true))] + [By(2, MExecute(1))];
            var d := Run(start, calls).s.desk;
            && 1 in d.requests && d.requests[1].status == Completed && d.requests[1].required == 2
            && TallyOf(start, calls, 1) == Tally(1, 1)
  {
    hide Run, TallyOf, Post, Record;
    var start := Init(1, TWO_SIGNERS).value;
    Asks();
    RunThen(start, ASKED, By(1, MSign(1, false)));
    RunThen(start, ASKED + [By(1, MSign(1, false))], By(2, MSign(1, true)));
    RunThen(start, ASKED + [By(1, MSign(1, false))] + [By(2, MSign(1, true))], By(2, MExecute(1)));
  }
}
