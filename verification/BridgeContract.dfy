/** The bridge as an object: its storage entries and the messages that read, update and write
    them back. Every method is tied to the function of the same message. */
module BridgeContract {
  import opened Common
  import opened Bridge

  class PropertyBridge {
    const admin: Address
    var config: Config
    var operators: seq<Address>
    var requests: map<nat, Request>
    var requestCounter: nat
    var nonces: map<Address, nat>
    var txCounter: nat
    var history: map<Address, seq<Transaction>>
    var verified: set<nat>

    ghost function SetupView(): Setup
      reads `config, `operators
    {
      Setup(admin, config, operators)
    }

    ghost function DeskView(): Desk
      reads `requests, `requestCounter, `nonces
    {
      Desk(requests, requestCounter, nonces)
    }

    ghost function ArchiveView(): Archive
      reads `txCounter, `history, `verified
    {
      Archive(txCounter, history, verified)
    }

    ghost function View(): State
      reads this
    {
      State(SetupView(), DeskView(), ArchiveView())
    }

    constructor (deployer: Address, settings: Config)
      requires InitFault(deployer, settings).None?
      ensures Init(deployer, settings) == Ok(View())
    {
      admin := deployer;
      config := settings.(paused := false);
      operators := [deployer];
      requests, requestCounter, nonces := map[], 0, map[];
      txCounter, history, verified := 0, map[], {};
    }

    method InitiateBridgeMultisig(e: Env, order: Order, feePaid: bool) returns (r: Result<Receipt, Error>)
      modifies `requests, `requestCounter, `nonces
      ensures Commits(Initiate(old(View()), e, order, feePaid), old(View()), View(), r)
    {
      if e.caller == ZERO_ADDRESS || order.recipient == ZERO_ADDRESS {
        return Err(ZeroAddress);
      }
      if order.token == 0 || order.required == 0 || order.metadata.size == 0 || order.metadata.valuation == 0
         || order.timeout == Some(0) {
        return Err(ZeroValue);
      }
      var currentNonce := CountAt(nonces, e.caller);
      if order.nonce != currentNonce + 1 {
        return Err(InvalidNonce);
      }
      if config.serviceFee > 0 && !feePaid {
        return Err(TransferFailed);
      }
      if config.paused {
        return Err(Paused);
      }
      if order.destination !in config.chains {
        return Err(UnsupportedChain);
      }
      if order.required < config.minSignatures || order.required > config.maxSignatures {
        return Err(InvalidSignatureRequirement);
      }
      var expiresAt := None;
      if order.timeout.Some? {
        expiresAt := Some(WrapU64(e.block + order.timeout.value));
      }
      nonces := nonces[e.caller := order.nonce];
      requestCounter := requestCounter + 1;
      requests := requests[requestCounter := Request(order.token, order.destination, e.caller, order.recipient,
                                                     order.required, [], e.block, expiresAt, Pending, order.metadata)];
      return Ok(Created(requestCounter, e.caller));
    }

    /** The checks that signing and executing share. */
    method CheckOperator(e: Env, id: nat) returns (fault: Option<Error>)
      ensures fault == OperatorFault(View(), e, id)
      ensures fault.None? ==> id in requests
    {
      if e.caller == ZERO_ADDRESS {
        return Some(ZeroAddress);
      }
      if id == 0 {
        return Some(ZeroValue);
      }
      if e.caller !in operators {
        return Some(NotOperator);
      }
      if config.paused {
        return Some(Paused);
      }
      if id !in requests {
        return Some(RequestNotFound);
      }
      return None;
    }

    method SignBridgeRequest(e: Env, id: nat, approve: bool) returns (r: Result<Receipt, Error>)
      modifies `requests
      ensures Commits(Sign(old(View()), e, id, approve), old(View()), View(), r)
    {
      hide OperatorFault;
      var fault := CheckOperator(e, id);
      if fault.Some? {
        return Err(fault.value);
      }
      var request := requests[id];
      if request.expiresAt.Some? && e.block > request.expiresAt.value {
        return Err(RequestExpired);
      }
      if e.caller in request.signatures {
        return Err(AlreadySigned);
      }
      request := request.(signatures := request.signatures + [e.caller]);
      if !approve {
        request := request.(status := Failed);
      } else if |request.signatures| >= request.required {
        request := request.(status := Locked);
      }
      requests := requests[id := request];
      return Ok(Signed(id, approve));
    }

    method ExecuteBridge(e: Env, id: nat) returns (r: Result<Receipt, Error>)
      modifies `requests, `txCounter, `history, `verified
      ensures Commits(Execute(old(View()), e, id), old(View()), View(), r)
    {
      hide OperatorFault;
      var fault := CheckOperator(e, id);
      if fault.Some? {
        return Err(fault.value);
      }
      var request := requests[id];
      if request.status != Locked {
        return Err(RequestNotReady);
      }
      txCounter := txCounter + 1;
      var tx := TransactionFor(request, id, txCounter, e.time);
      request := request.(status := Completed);
      requests := requests[id := request];
      verified := verified + {id};
      AppendHistory(request.sender, tx);
      return Ok(Executed(id, tx));
    }

    /** Appends to a sender's history, shifting out the oldest entry of a full one. */
    method AppendHistory(sender: Address, tx: Transaction)
      modifies `history
      ensures history == old(history)[sender := Remember(ListAt(old(history), sender), tx)]
    {
      var entries := ListAt(history, sender);
      if |entries| >= MAX_HISTORY_ITEMS {
        entries := entries[1..];
      }
      entries := entries + [tx];
      history := history[sender := entries];
    }

    method RecoverFailedBridge(e: Env, id: nat, action: Recovery) returns (r: Result<Receipt, Error>)
      modifies `requests
      ensures Commits(Recover(old(View()), e, id, action), old(View()), View(), r)
    {
      if e.caller == ZERO_ADDRESS {
        return Err(ZeroAddress);
      }
      if id == 0 {
        return Err(ZeroValue);
      }
      if e.caller != admin {
        return Err(Unauthorized);
      }
      if config.paused {
        return Err(Paused);
      }
      if id !in requests {
        return Err(RequestNotFound);
      }
      var request := requests[id];
      if request.status != Failed && request.status != Expired {
        return Err(RequestNotFailed);
      }
      match action {
        case RetryBridge =>
          request := request.(status := Pending);
          request := request.(signatures := []);
        case _ =>
          request := request.(status := Failed);
      }
      requests := requests[id := request];
      return Ok(Recovered(id, action));
    }

    method SetPause(e: Env, paused: bool) returns (r: Result<Receipt, Error>)
      modifies `config
      ensures Commits(Bridge.SetPause(old(View()), e, paused), old(View()), View(), r)
    {
      if e.caller == ZERO_ADDRESS {
        return Err(ZeroAddress);
      }
      if e.caller != admin {
        return Err(Unauthorized);
      }
      config := config.(paused := paused);
      return Ok(Done);
    }

    method AddOperator(e: Env, operator: Address) returns (r: Result<Receipt, Error>)
      modifies `operators
      ensures Commits(Bridge.AddOperator(old(View()), e, operator), old(View()), View(), r)
    {
      if e.caller == ZERO_ADDRESS || operator == ZERO_ADDRESS {
        return Err(ZeroAddress);
      }
      if e.caller != admin {
        return Err(Unauthorized);
      }
      if |operators| >= MAX_OPERATORS {
        return Err(TooManyOperators);
      }
      if operator !in operators {
        operators := operators + [operator];
      }
      return Ok(Done);
    }

    method RemoveOperator(e: Env, operator: Address) returns (r: Result<Receipt, Error>)
      modifies `operators
      ensures Commits(Bridge.RemoveOperator(old(View()), e, operator), old(View()), View(), r)
    {
      if e.caller == ZERO_ADDRESS || operator == ZERO_ADDRESS {
        return Err(ZeroAddress);
      }
      if e.caller != admin {
        return Err(Unauthorized);
      }
      operators := OthersThan(operators, operator);
      return Ok(Done);
    }
  }

  /** The list without one operator, built in a pass over it. */
  method OthersThan(operators: seq<Address>, operator: Address) returns (others: seq<Address>)
    ensures others == Without(operators, operator)
  {
    others := [];
    var i := 0;
    while i < |operators|
      invariant 0 <= i <= |operators|
      invariant others == Without(operators[..i], operator)
    {
      assert operators[..i + 1][..i] == operators[..i];
      if operators[i] != operator {
        others := others + [operators[i]];
      }
      i := i + 1;
    }
    assert operators[..i] == operators;
  }
}
