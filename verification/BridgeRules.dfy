/** What the bridge asks of a message and what it does in return, in every reachable state. */
module BridgeRules {
  import opened Common
  import opened Bridge
  import opened BridgeTheorems

  /** A bridge can be set up exactly with an account in charge and with one to twenty chains, a
      range of signatures, a timeout and a gas limit that are not zero; it starts unpaused,
      with its admin as only operator and nothing filed. */
  lemma SetupRule(admin: Address, config: Config)
    ensures Init(admin, config).Ok?
            <==> && admin != ZERO_ADDRESS && 1 <= |config.chains| <= 20 && 0 !in config.chains
                 && 1 <= config.minSignatures <= config.maxSignatures && config.defaultTimeout > 0 && config.gasLimit > 0
    ensures Init(admin, config).Ok? ==>
              var s := Init(admin, config).value;
              && s.setup.admin == admin && s.setup.operators == [admin] && s.setup.config == config.(paused := false)
              && s.desk.requests == map[] && s.desk.counter == 0 && s.desk.nonces == map[]
              && s.archive.counter == 0 && s.archive.history == map[] && s.archive.verified == {}
  {
  }

  ghost predicate OnlyRequest(s: State, s': State, id: nat) {
    && s'.setup == s.setup && s'.desk.counter == s.desk.counter && s'.desk.nonces == s.desk.nonces
    && s'.desk.requests.Keys == s.desk.requests.Keys && id in s.desk.requests
    && (forall j: nat | j in s.desk.requests && j != id :: s'.desk.requests[j] == s.desk.requests[j])
    && SameOrder(s.desk.requests[id], s'.desk.requests[id])
  }

  /** What the caller of a proper request asks for. */
  ghost predicate ProperOrder(config: Config, order: Order) {
    && order.recipient != ZERO_ADDRESS && order.token != 0 && order.metadata.size != 0 && order.metadata.valuation != 0
    && order.timeout != Some(0) && order.destination in config.chains
    && 1 <= order.required && config.minSignatures <= order.required <= config.maxSignatures
  }

  /** In every reachable state a request is filed exactly on a proper order, by an account that
      numbers its requests consecutively and pays the service fee if there is one; it starts
      unsigned, for as many blocks as asked. */
  lemma OrderRule(admin: Address, config: Config, calls: seq<Call>, e: Env, order: Order, feePaid: bool)
    requires Init(admin, config).Ok?
    ensures var s := Run(Init(admin, config).value, calls).s;
            Initiate(s, e, order, feePaid).Ok?
            <==> && !s.setup.config.paused && e.caller != ZERO_ADDRESS && ProperOrder(s.setup.config, order)
                 && order.nonce == SumBy(s.desk.requests, SentBy(e.caller)) + 1
                 && (s.setup.config.serviceFee > 0 ==> feePaid)
    ensures var s := Run(Init(admin, config).value, calls).s;
            Initiate(s, e, order, feePaid).Ok? ==>
              var (s', r), id := Initiate(s, e, order, feePaid).value, s.desk.counter + 1;
              && r == Created(id, e.caller) && id !in s.desk.requests
              && s'.setup == s.setup && s'.archive == s.archive && s'.desk.counter == id
              && s'.desk.nonces == s.desk.nonces[e.caller := order.nonce]
              && s'.desk.requests.Keys == s.desk.requests.Keys + {id}
              && (forall j: nat | j in s.desk.requests :: s'.desk.requests[j] == s.desk.requests[j])
              && var request := s'.desk.requests[id];
              && request.token == order.token && request.destination == order.destination && request.sender == e.caller
              && request.recipient == order.recipient && request.required == order.required
              && request.signatures == [] && request.status == Pending && request.createdAt == e.block
              && request.metadata == order.metadata
              && (request.expiresAt.Some? <==> order.timeout.Some?)
              && (order.timeout.Some? && e.block + order.timeout.value <= U64_MAX ==>
                    request.expiresAt == Some(e.block + order.timeout.value))
  {
    hide Run, Init, SumBy, SetupSound, ArchiveSound, RequestSound;
    EveryRunCountsRequests(admin, config, calls, e.caller);
  }

  /** Operators sign a request once each until it expires, whatever its status; a rejection fails
      it, and an approval locks it when it brings the signatures to the required number. */
  lemma SigningRule(w: World, e: Env, id: nat, approve: bool)
    requires Good(w)
    ensures Sign(w.s, e, id, approve).Ok?
            <==> && e.caller != ZERO_ADDRESS && e.caller in w.s.setup.operators && !w.s.setup.config.paused
                 && id in w.s.desk.requests && e.caller !in w.s.desk.requests[id].signatures
                 && (w.s.desk.requests[id].expiresAt.Some? ==> e.block <= w.s.desk.requests[id].expiresAt.value)
    ensures Sign(w.s, e, id, approve).Ok? ==>
              var (s', r) := Sign(w.s, e, id, approve).value;
              var request, request' := w.s.desk.requests[id], s'.desk.requests[id];
              && r == Signed(id, approve) && OnlyRequest(w.s, s', id) && s'.archive == w.s.archive
              && request'.signatures == request.signatures + [e.caller]
              && (if !approve then request'.status == Failed
                  else if |request.signatures| + 1 >= request.required then request'.status == Locked
                  else request'.status == request.status)
  {
    hide RequestSound, ArchiveSound, Counted, SetupSound;
  }

  /** Operators execute exactly the locked requests, expired or not; this completes the request and
      records a copy of it, with the time, as the sender's latest transaction. */
  lemma ExecutionRule(w: World, e: Env, id: nat)
    requires Good(w)
    ensures Execute(w.s, e, id).Ok?
            <==> && e.caller != ZERO_ADDRESS && e.caller in w.s.setup.operators && !w.s.setup.config.paused
                 && id in w.s.desk.requests && w.s.desk.requests[id].status == Locked
    ensures Execute(w.s, e, id).Ok? ==>
              var (s', r), request := Execute(w.s, e, id).value, w.s.desk.requests[id];
              && r.Executed? && r.id == id && OnlyRequest(w.s, s', id)
              && s'.desk.requests[id] == request.(status := Completed)
              && Copies(r.tx, request) && r.tx.id == s'.archive.counter == w.s.archive.counter + 1
              && r.tx.request == id && r.tx.timestamp == e.time
              && s'.archive.verified == w.s.archive.verified + {id}
              && (forall a: Address | a != request.sender :: ListAt(s'.archive.history, a) == ListAt(w.s.archive.history, a))
              && var history := ListAt(s'.archive.history, request.sender);
                 history != [] && history[|history| - 1] == r.tx
  {
    hide RequestSound, ArchiveSound, Counted, SetupSound;
  }

  /** The admin recovers exactly the failed requests; a retry takes the signatures away and makes
      the request pending, everything else leaves it failed. */
  lemma RecoveryRule(w: World, e: Env, id: nat, action: Recovery)
    requires Good(w)
    ensures Recover(w.s, e, id, action).Ok?
            <==> && e.caller == w.s.setup.admin != ZERO_ADDRESS && !w.s.setup.config.paused
                 && id in w.s.desk.requests && w.s.desk.requests[id].status == Failed
    ensures Recover(w.s, e, id, action).Ok? ==>
              var (s', r), request := Recover(w.s, e, id, action).value, w.s.desk.requests[id];
              && r == Recovered(id, action) && OnlyRequest(w.s, s', id) && s'.archive == w.s.archive
              && s'.desk.requests[id] == if action == RetryBridge then request.(status := Pending, signatures := []) else request
  {
    hide RequestSound, ArchiveSound, Counted, SetupSound;
    if id in w.s.desk.requests {
      RequestKnown(w, id);
      NeverExpired(w.s.desk.requests[id], CountAt(w.g.since, id));
    }
  }

  // ---------------------------------------------------------------------------------------
  // The admin
  // ---------------------------------------------------------------------------------------

  /** Nothing of the setup but the pause flag and the operators ever changes, and these only by the
      admin; adding fails once there are ten operators. */
  lemma StepSetup(s: State, e: Env, m: Message)
    ensures var s' := if Handle(s, e, m).Ok? then Handle(s, e, m).value.0 else s;
            var p, p' := s.setup, s'.setup;
            && p'.admin == p.admin && p'.config == p.config.(paused := p'.config.paused)
            && (p' != p ==> e.caller == p.admin && s' == s.(setup := p'))
            && (if e.caller == p.admin != ZERO_ADDRESS then
                  && (m.MPause? ==> p'.config.paused == m.paused)
                  && (m.MAdd? && m.operator != ZERO_ADDRESS && |p.operators| < 10 ==>
                        p'.operators == if m.operator in p.operators then p.operators else p.operators + [m.operator])
                  && (m.MAdd? && |p.operators| >= 10 ==> p' == p && Handle(s, e, m).Err?)
                  && (m.MRemove? && m.operator != ZERO_ADDRESS ==>
                        forall a: Address :: a in p'.operators <==> a in p.operators && a != m.operator)
                else p' == p)
            && (!m.MPause? ==> p'.config == p.config) && (!m.MAdd? && !m.MRemove? ==> p'.operators == p.operators)
            && (m.MAdd? || m.MRemove? ==> ZERO_ADDRESS in p'.operators ==> ZERO_ADDRESS in p.operators)
  {
    hide Record, InitiateFault, OperatorFault;
  }

  /** In every run the admin and the configuration are the ones the bridge was set up with, but
      for the pause flag, and the zero account is no operator. */
  lemma {:induction false} EveryRunKeepsTheSetup(admin: Address, config: Config, calls: seq<Call>)
    requires Init(admin, config).Ok?
    ensures var p := Run(Init(admin, config).value, calls).s.setup;
            p.admin == admin && p.config == config.(paused := p.config.paused) && ZERO_ADDRESS !in p.operators
  {
    hide Handle, Post;
    SetupRule(admin, config);
    if calls != [] {
      var before, c := calls[..|calls| - 1], calls[|calls| - 1];
      EveryRunKeepsTheSetup(admin, config, before);
      StepSetup(Run(Init(admin, config).value, before).s, c.env, c.message);
    }
  }
}
