/** The escrow as an object: its storage entries and the messages that update them step by
    step. Every method is tied to the function of the same message. */
module EscrowContract {
  import opened Common
  import opened Escrow

  class AdvancedEscrow {
    const admin: Address
    var paused: bool
    var escrows: map<nat, Deal>
    var configs: map<nat, MultiSig>
    var escrowCount: nat
    var nonces: map<Address, nat>
    var signatures: set<(nat, Approval, Address)>
    var signatureCounts: map<(nat, Approval), nat>

    ghost function View(): State
      reads this
    {
      State(admin, paused, Deals(escrows, configs, escrowCount, nonces), Approvals(signatures, signatureCounts))
    }

    constructor (deployer: Address)
      requires deployer != ZERO_ADDRESS
      ensures Init(deployer) == Ok(View())
    {
      admin, paused := deployer, false;
      escrows, configs, escrowCount, nonces := map[], map[], 0, map[];
      signatures, signatureCounts := {}, map[];
    }

    method SetPause(e: Env, paused: bool) returns (r: Result<Receipt, Error>)
      modifies `paused
      ensures Commits(Escrow.SetPause(old(View()), e, paused), old(View()), View(), r)
    {
      if e.caller == ZERO_ADDRESS {
        return Err(ZeroAddress);
      }
      if e.caller != admin {
        return Err(Unauthorized);
      }
      this.paused := paused;
      return Ok(Done);
    }

    method CreateEscrowAdvanced(e: Env, t: Terms) returns (r: Result<Receipt, Error>)
      modifies `escrows, `configs, `escrowCount, `nonces
      ensures Commits(CreateEscrow(old(View()), e, t), old(View()), View(), r)
    {
      if paused {
        return Err(Paused);
      }
      if t.property == 0 {
        return Err(ZeroValue);
      }
      if t.amount <= 0 {
        return Err(NotPositive);
      }
      var currentNonce := CountAt(nonces, t.buyer);
      if t.nonce != currentNonce + 1 {
        return Err(InvalidNonce);
      }
      if |t.participants| > MAX_PARTICIPANTS {
        return Err(TooManyParticipants);
      }
      if t.required == 0 || |t.participants| == 0 || t.required > |t.participants| {
        return Err(InvalidConfiguration);
      }
      if t.buyer == ZERO_ADDRESS || t.seller == ZERO_ADDRESS {
        return Err(ZeroAddress);
      }
      var nonZero := AllNonZero(t.participants);
      if !nonZero {
        return Err(ZeroAddress);
      }
      if t.timeLock.Some? && t.timeLock.value <= e.now {
        return Err(NotInTheFuture);
      }
      nonces := nonces[t.buyer := t.nonce];
      escrowCount := escrowCount + 1;
      escrows := escrows[escrowCount := Deal(t.property, t.buyer, t.seller, t.amount, 0, Created, e.now, t.timeLock,
                                             t.participants)];
      configs := configs[escrowCount := MultiSig(t.required, t.participants)];
      return Ok(Opened(escrowCount));
    }

    method DepositFunds(id: nat, amount: int) returns (r: Result<Receipt, Error>)
      modifies `escrows
      ensures Commits(Escrow.DepositFunds(old(View()), id, amount), old(View()), View(), r)
    {
      if paused {
        return Err(Paused);
      }
      if id == 0 {
        return Err(ZeroValue);
      }
      if amount <= 0 {
        return Err(NotPositive);
      }
      if id !in escrows {
        return Err(EscrowNotFound);
      }
      var escrow := escrows[id];
      if escrow.status != Created && escrow.status != Funded {
        return Err(InvalidStatus);
      }
      var newTotal := escrow.deposited + amount;
      if newTotal > escrow.amount {
        return Err(DepositExceedsAmount);
      }
      escrow := escrow.(deposited := newTotal);
      if escrow.deposited >= escrow.amount {
        escrow := escrow.(status := Active);
      } else {
        escrow := escrow.(status := Funded);
      }
      escrows := escrows[id := escrow];
      return Ok(Funds(id, amount));
    }

    method ReleaseFunds(e: Env, id: nat) returns (r: Result<Receipt, Error>)
      modifies `escrows
      ensures Commits(Escrow.ReleaseFunds(old(View()), e, id), old(View()), View(), r)
    {
      if paused {
        return Err(Paused);
      }
      if id == 0 {
        return Err(ZeroValue);
      }
      if id !in escrows || id !in configs {
        return Err(EscrowNotFound);
      }
      var escrow := escrows[id];
      if escrow.status != Active {
        return Err(InvalidStatus);
      }
      if escrow.timeLock.Some? {
        if e.now < escrow.timeLock.value {
          return Err(TimeLockActive);
        }
      }
      var count := CountAt(signatureCounts, (id, ForRelease));
      if count < configs[id].required {
        return Err(ThresholdNotMet);
      }
      var amount := escrow.deposited;
      escrow := escrow.(status := Released);
      escrow := escrow.(deposited := 0);
      escrows := escrows[id := escrow];
      return Ok(Payment(id, amount));
    }

    method SignApproval(e: Env, id: nat, approval: Approval) returns (r: Result<Receipt, Error>)
      modifies `signatures, `signatureCounts
      ensures Commits(Escrow.SignApproval(old(View()), e, id, approval), old(View()), View(), r)
    {
      if paused {
        return Err(Paused);
      }
      if id == 0 {
        return Err(ZeroValue);
      }
      if e.caller == ZERO_ADDRESS {
        return Err(ZeroAddress);
      }
      if id !in configs {
        return Err(EscrowNotFound);
      }
      if e.caller !in configs[id].signers {
        return Err(Unauthorized);
      }
      if (id, approval, e.caller) in signatures {
        return Err(AlreadySigned);
      }
      signatures := signatures + {(id, approval, e.caller)};
      var count := CountAt(signatureCounts, (id, approval));
      count := count + 1;
      signatureCounts := signatureCounts[(id, approval) := count];
      return Ok(Approved(id, approval, e.caller, count));
    }
  }

  method AllNonZero(accounts: seq<Address>) returns (ok: bool)
    ensures ok <==> ZERO_ADDRESS !in accounts
  {
    var i := 0;
    while i < |accounts|
      invariant 0 <= i <= |accounts|
      invariant ZERO_ADDRESS !in accounts[..i]
    {
      if accounts[i] == ZERO_ADDRESS {
        return false;
      }
      i := i + 1;
    }
    return true;
  }
}
