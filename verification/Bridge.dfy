/** The multisig bridge: requests that operators sign, execute and recover, with a nonce per
    sender and a bounded history, as functions from storage to storage. */
module Bridge {
  import opened Common

  const MAX_SUPPORTED_CHAINS: nat := 20
  const MAX_OPERATORS: nat := 10
  const MAX_HISTORY_ITEMS: nat := 50

  /** One error per panic message. */
  datatype Error =
    | ZeroAddress | ZeroValue | NoChains | TooManyChains | BoundsReversed
    | InvalidNonce | TransferFailed | Paused | UnsupportedChain | InvalidSignatureRequirement
    | NotOperator | RequestNotFound | RequestExpired | AlreadySigned | RequestNotReady
    | Unauthorized | RequestNotFailed | TooManyOperators

  datatype Status = Pending | Locked | Completed | Failed | Expired | InTransit

  datatype Metadata = Metadata(size: nat, valuation: nat)

  datatype Request = Request(
    token: nat, destination: nat, sender: Address, recipient: Address, required: nat,
    signatures: seq<Address>, createdAt: nat, expiresAt: Option<nat>, status: Status, metadata: Metadata)

  /** `request` stands for the transaction hash, which is the hash of the request number. */
  datatype Transaction = Transaction(
    id: nat, token: nat, destination: nat, sender: Address, recipient: Address, request: nat, timestamp: nat,
    metadata: Metadata)

  datatype Recovery = UnlockToken | RefundGas | RetryBridge | CancelBridge

  datatype Config = Config(
    chains: seq<nat>, minSignatures: nat, maxSignatures: nat, defaultTimeout: nat, gasLimit: nat,
    paused: bool, serviceFee: int)

  datatype Setup = Setup(admin: Address, config: Config, operators: seq<Address>)

  datatype Desk = Desk(requests: map<nat, Request>, counter: nat, nonces: map<Address, nat>)

  datatype Archive = Archive(counter: nat, history: map<Address, seq<Transaction>>, verified: set<nat>)

  datatype State = State(setup: Setup, desk: Desk, archive: Archive)

  /** Who calls, the ledger sequence number and the timestamp. */
  datatype Env = Env(caller: Address, block: nat, time: nat)

  /** What a successful message reports. */
  datatype Receipt =
    | Done
    | Created(id: nat, sender: Address)
    | Signed(id: nat, approve: bool)
    | Executed(id: nat, tx: Transaction)
    | Recovered(id: nat, action: Recovery)

  type Answer = Result<(State, Receipt), Error>

  function InitFault(admin: Address, config: Config): Option<Error> {
    if admin == ZERO_ADDRESS then Some(ZeroAddress)
    else if config.chains == [] then Some(NoChains)
    else if config.minSignatures == 0 || config.maxSignatures == 0 || config.defaultTimeout == 0 || config.gasLimit == 0
    then Some(ZeroValue)
    else if |config.chains| > MAX_SUPPORTED_CHAINS then Some(TooManyChains)
    else if 0 in config.chains then Some(ZeroValue)
    else if config.minSignatures > config.maxSignatures then Some(BoundsReversed)
    else None
  }

  /** The storage `init` writes; the bridge starts unpaused with its admin as only operator. */
  function Init(admin: Address, config: Config): Result<State, Error> {
    var fault := InitFault(admin, config);
    if fault.Some? then Err(fault.value)
    else Ok(State(Setup(admin, config.(paused := false), [admin]), Desk(map[], 0, map[]), Archive(0, map[], {})))
  }

  /** The caller's part of a bridge request. */
  datatype Order = Order(
    token: nat, destination: nat, recipient: Address, required: nat, timeout: Option<nat>,
    metadata: Metadata, nonce: nat)

  /** `feePaid` says whether the token contract accepts the service fee transfer. */
  function InitiateFault(s: State, e: Env, order: Order, feePaid: bool): Option<Error> {
    var config := s.setup.config;
    if e.caller == ZERO_ADDRESS || order.recipient == ZERO_ADDRESS then Some(ZeroAddress)
    else if order.token == 0 || order.required == 0 || order.metadata.size == 0 || order.metadata.valuation == 0
            || order.timeout == Some(0) then Some(ZeroValue)
    else if order.nonce != CountAt(s.desk.nonces, e.caller) + 1 then Some(InvalidNonce)
    else if config.serviceFee > 0 && !feePaid then Some(TransferFailed)
    else if config.paused then Some(Paused)
    else if order.destination !in config.chains then Some(UnsupportedChain)
    else if order.required < config.minSignatures || order.required > config.maxSignatures then
      Some(InvalidSignatureRequirement)
    else None
  }

  function Deadline(block: nat, timeout: Option<nat>): Option<nat> {
    match timeout
    case Some(blocks) => Some(WrapU64(block + blocks))
    case None => None
  }

  /** Files a request under the next number and uses up its sender's nonce. */
  function File(d: Desk, sender: Address, nonce: nat, request: Request): Desk {
    Desk(d.requests[d.counter + 1 := request], d.counter + 1, d.nonces[sender := nonce])
  }

  function Initiate(s: State, e: Env, order: Order, feePaid: bool): Answer {
    var fault := InitiateFault(s, e, order, feePaid);
    if fault.Some? then Err(fault.value)
    else
      var request := Request(order.token, order.destination, e.caller, order.recipient, order.required, [],
                             e.block, Deadline(e.block, order.timeout), Pending, order.metadata);
      Ok((s.(desk := File(s.desk, e.caller, order.nonce, request)), Created(s.desk.counter + 1, e.caller)))
  }

  /** The checks shared by signing and executing. */
  function OperatorFault(s: State, e: Env, id: nat): Option<Error> {
    if e.caller == ZERO_ADDRESS then Some(ZeroAddress)
    else if id == 0 then Some(ZeroValue)
    else if e.caller !in s.setup.operators then Some(NotOperator)
    else if s.setup.config.paused then Some(Paused)
    else if id !in s.desk.requests then Some(RequestNotFound)
    else None
  }

  function AddSignature(request: Request, operator: Address, approve: bool): Request {
    var signatures := request.signatures + [operator];
    request.(signatures := signatures,
             status := if !approve then Failed
                       else if |signatures| >= request.required then Locked
                       else request.status)
  }

  function Put(s: State, id: nat, request: Request): State {
    s.(desk := s.desk.(requests := s.desk.requests[id := request]))
  }

  function Sign(s: State, e: Env, id: nat, approve: bool): Answer {
    var fault := OperatorFault(s, e, id);
    if fault.Some? then Err(fault.value)
    else
      var request := s.desk.requests[id];
      if request.expiresAt.Some? && e.block > request.expiresAt.value then Err(RequestExpired)
      else if e.caller in request.signatures then Err(AlreadySigned)
      else Ok((Put(s, id, AddSignature(request, e.caller, approve)), Signed(id, approve)))
  }

  /** Appends to a bounded history, dropping the oldest entry of a full one. */
  function Remember(history: seq<Transaction>, tx: Transaction): seq<Transaction> {
    if |history| >= MAX_HISTORY_ITEMS then history[1..] + [tx] else history + [tx]
  }

  function Record(a: Archive, id: nat, tx: Transaction): Archive {
    Archive(a.counter + 1, a.history[tx.sender := Remember(ListAt(a.history, tx.sender), tx)], a.verified + {id})
  }

  function TransactionFor(request: Request, id: nat, number: nat, time: nat): Transaction {
    Transaction(number, request.token, request.destination, request.sender, request.recipient, id, time, request.metadata)
  }

  function Execute(s: State, e: Env, id: nat): Answer {
    var fault := OperatorFault(s, e, id);
    if fault.Some? then Err(fault.value)
    else
      var request := s.desk.requests[id];
      if request.status != Locked then Err(RequestNotReady)
      else
        var tx := TransactionFor(request, id, s.archive.counter + 1, e.time);
        Ok((Put(s, id, request.(status := Completed)).(archive := Record(s.archive, id, tx)), Executed(id, tx)))
  }

  function AdminFault(s: State, e: Env): Option<Error> {
    if e.caller == ZERO_ADDRESS then Some(ZeroAddress)
    else if e.caller != s.setup.admin then Some(Unauthorized)
    else None
  }

  function Recover(s: State, e: Env, id: nat, action: Recovery): Answer {
    var fault := AdminFault(s, e);
    if e.caller != ZERO_ADDRESS && id == 0 then Err(ZeroValue)
    else if fault.Some? then Err(fault.value)
    else if s.setup.config.paused then Err(Paused)
    else if id !in s.desk.requests then Err(RequestNotFound)
    else
      var request := s.desk.requests[id];
      if request.status != Failed && request.status != Expired then Err(RequestNotFailed)
      else
        var request' := if action == RetryBridge then request.(status := Pending, signatures := [])
                        else request.(status := Failed);
        Ok((Put(s, id, request'), Recovered(id, action)))
  }

  function SetPause(s: State, e: Env, paused: bool): Answer {
    var fault := AdminFault(s, e);
    if fault.Some? then Err(fault.value)
    else Ok((s.(setup := s.setup.(config := s.setup.config.(paused := paused))), Done))
  }

  function OperatorChangeFault(s: State, e: Env, operator: Address): Option<Error> {
    if operator == ZERO_ADDRESS then Some(ZeroAddress) else AdminFault(s, e)
  }

  function AddOperator(s: State, e: Env, operator: Address): Answer {
    var fault := OperatorChangeFault(s, e, operator);
    if fault.Some? then Err(fault.value)
    else if |s.setup.operators| >= MAX_OPERATORS then Err(TooManyOperators)
    else if operator in s.setup.operators then Ok((s, Done))
    else Ok((s.(setup := s.setup.(operators := s.setup.operators + [operator])), Done))
  }

  function RemoveOperator(s: State, e: Env, operator: Address): Answer {
    var fault := OperatorChangeFault(s, e, operator);
    if fault.Some? then Err(fault.value)
    else Ok((s.(setup := s.setup.(operators := Without(s.setup.operators, operator))), Done))
  }

  // ---------------------------------------------------------------------------------------
  // Runs
  // ---------------------------------------------------------------------------------------

  datatype Message =
    | MInitiate(order: Order, feePaid: bool)
    | MSign(id: nat, approve: bool)
    | MExecute(id: nat)
    | MRecover(id: nat, action: Recovery)
    | MPause(paused: bool)
    | MAdd(operator: Address)
    | MRemove(operator: Address)

  function Handle(s: State, e: Env, m: Message): Answer {
    match m
    case MInitiate(order, feePaid) => Initiate(s, e, order, feePaid)
    case MSign(id, approve) => Sign(s, e, id, approve)
    case MExecute(id) => Execute(s, e, id)
    case MRecover(id, action) => Recover(s, e, id, action)
    case MPause(paused) => SetPause(s, e, paused)
    case MAdd(operator) => AddOperator(s, e, operator)
    case MRemove(operator) => RemoveOperator(s, e, operator)
  }
}
