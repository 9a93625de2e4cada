/** The fee manager as an object: its storage fields and the messages that update them in
    place. Every method is tied to the function of the same message. */
module FeeManagerContract {
  import opened Common
  import opened Fees

  class FeeManager {
    const admin: Address
    var overrides: map<Operation, FeeConfig>
    var defaultConfig: FeeConfig
    var recentOps: nat
    var lastReset: nat
    var balance: nat
    var collected: nat
    var distributed: nat
    var pending: map<Address, nat>
    var records: map<nat, Record>
    var recordCount: nat
    var validators: set<Address>
    var validatorList: seq<Address>
    var validatorBp: nat
    var treasuryBp: nat
    var auctions: map<nat, Auction>
    var bids: map<(nat, Address), Bid>
    var auctionCount: nat

    ghost function PricingView(): Pricing
      reads `overrides, `defaultConfig, `recentOps, `lastReset
    {
      Pricing(overrides, defaultConfig, recentOps, lastReset)
    }

    ghost function TreasuryView(): Treasury
      reads `balance, `collected, `distributed, `pending, `records, `recordCount
      reads `validators, `validatorList, `validatorBp, `treasuryBp
    {
      Treasury(balance, collected, distributed, pending, records, recordCount, validators, validatorList,
               validatorBp, treasuryBp)
    }

    ghost function HouseView(): House
      reads `auctions, `bids, `auctionCount
    {
      House(auctions, bids, auctionCount)
    }

    ghost function View(): State
      reads this
    {
      State(admin, PricingView(), TreasuryView(), HouseView())
    }

    constructor (e: Env, baseFee: nat, minFee: nat, maxFee: nat)
      ensures View() == New(e, baseFee, minFee, maxFee)
    {
      admin := e.caller;
      overrides, recentOps, lastReset := map[], 0, e.now;
      defaultConfig := FeeConfig(baseFee, minFee, maxFee, 80, 500, e.now);
      balance, collected, distributed, pending := 0, 0, 0, map[];
      records, recordCount := map[], 0;
      validators, validatorList, validatorBp, treasuryBp := {}, [], 5000, 5000;
      auctions, bids, auctionCount := map[], map[], 0;
    }

    method CongestionIndex(now: nat) returns (index: nat)
      ensures index == Fees.CongestionIndex(PricingView(), now)
    {
      if SatSub(now, lastReset) > WINDOW_SECONDS {
        return 0;
      }
      index := Min(SatU32(recentOps * 100) / CONGESTION_WINDOW, 100);
    }

    method CalculateFee(op: Operation, now: nat) returns (fee: Result<nat, FeeError>)
      ensures fee == Fees.CalculateFee(PricingView(), op, now)
    {
      hide Multiplier;
      var config := defaultConfig;
      if op in overrides {
        config := overrides[op];
      }
      var congestion := CongestionIndex(now);
      var demand := SatU32(defaultConfig.demandBp * congestion) / 100;
      fee := DynamicFee(config, congestion, demand);
    }

    method RecordFeeCollected(e: Env, amount: nat) returns (r: Result<Receipt, FeeError>)
      modifies `recentOps, `lastReset, `balance, `collected
      ensures Commits(Fees.RecordFeeCollected(old(View()), e, amount), old(View()), View(), r)
    {
      hide SatAdd;
      recentOps := Min(SatU32(recentOps + 1), CONGESTION_WINDOW);
      if SatSub(e.now, lastReset) > WINDOW_SECONDS {
        lastReset := e.now;
        recentOps := 1;
      }
      balance := SatAdd(balance, amount);
      collected := SatAdd(collected, amount);
      return Ok(Collected(amount));
    }

    method CollectFee(e: Env, op: Operation, amount: nat, transferred: nat) returns (r: Result<Receipt, FeeError>)
      modifies `recentOps, `lastReset, `balance, `collected
      ensures Commits(Fees.CollectFee(old(View()), e, op, amount, transferred), old(View()), View(), r)
    {
      hide Fees.CalculateFee, Fees.RecordFeeCollected;
      var recommended := CalculateFee(op, e.now);
      if recommended.Err? {
        return Err(recommended.error);
      }
      if transferred < amount {
        return Err(InsufficientTransfer);
      }
      r := RecordFeeCollected(e, amount);
    }

    method UpdateFeeParams(e: Env) returns (r: Result<Receipt, FeeError>)
      modifies `defaultConfig
      ensures Commits(Fees.UpdateFeeParams(old(View()), e), old(View()), View(), r)
    {
      hide SatMul, Fees.CongestionIndex;
      if e.caller != admin {
        return Err(Unauthorized);
      }
      var congestion := CongestionIndex(e.now);
      var config := defaultConfig;
      if congestion > 70 {
        config := config.(baseFee := Min(SatMul(config.baseFee, 105) / 100, config.maxFee));
      } else if congestion < 30 {
        config := config.(baseFee := Max(SatMul(config.baseFee, 95) / 100, config.minFee));
      }
      defaultConfig := config.(lastUpdated := e.now);
      return Ok(Done);
    }

    method SetOperationConfig(e: Env, op: Operation, config: FeeConfig) returns (r: Result<Receipt, FeeError>)
      modifies `overrides
      ensures Commits(Fees.SetOperationConfig(old(View()), e, op, config), old(View()), View(), r)
    {
      if e.caller != admin {
        return Err(Unauthorized);
      }
      if config.minFee > config.maxFee || config.baseFee < config.minFee {
        return Err(InvalidConfig);
      }
      overrides := overrides[op := config];
      return Ok(Done);
    }

    method CreatePremiumAuction(e: Env, property: nat, minBid: nat, duration: nat) returns (r: Result<Receipt, FeeError>)
      modifies `balance, `collected, `auctionCount, `auctions
      ensures Commits(Fees.CreatePremiumAuction(old(View()), e, property, minBid, duration), old(View()), View(), r)
    {
      hide SatAdd, SatTime, Fees.CalculateFee;
      var quote := CalculateFee(PremiumListingBid, e.now);
      if quote.Err? {
        return Err(quote.error);
      }
      var fee := quote.value;
      if fee > 0 {
        balance := SatAdd(balance, fee);
        collected := SatAdd(collected, fee);
      }
      auctionCount := auctionCount + 1;
      var auction := Auction(property, e.caller, minBid, 0, None, SatTime(e.now, duration), false, fee);
      auctions := auctions[auctionCount := auction];
      return Ok(Opened(auctionCount, fee));
    }

    method PlaceBid(e: Env, id: nat, amount: nat) returns (r: Result<Receipt, FeeError>)
      modifies `auctions, `bids
      ensures Commits(Fees.PlaceBid(old(View()), e, id, amount), old(View()), View(), r)
    {
      if id !in auctions {
        return Err(AuctionNotFound);
      }
      var auction := auctions[id];
      if auction.settled {
        return Err(AlreadySettled);
      }
      if e.now >= auction.endTime {
        return Err(AuctionEnded);
      }
      if amount < auction.minBid {
        return Err(BidTooLow);
      }
      if amount <= auction.currentBid {
        return Err(BidTooLow);
      }
      auction := auction.(currentBid := amount);
      auction := auction.(currentBidder := Some(e.caller));
      auctions := auctions[id := auction];
      bids := bids[(id, e.caller) := Bid(e.caller, amount)];
      return Ok(Bidden(id, Bid(e.caller, amount)));
    }

    method SettleAuction(e: Env, id: nat) returns (r: Result<Receipt, FeeError>)
      modifies `auctions
      ensures Commits(Fees.SettleAuction(old(View()), e, id), old(View()), View(), r)
    {
      if id !in auctions {
        return Err(AuctionNotFound);
      }
      var auction := auctions[id];
      if auction.settled {
        return Err(AlreadySettled);
      }
      if e.now < auction.endTime {
        return Err(AuctionNotEnded);
      }
      if auction.currentBidder.None? {
        return Err(AuctionNotFound);
      }
      auction := auction.(settled := true);
      auctions := auctions[id := auction];
      return Ok(Settled(id, auction.currentBidder.value, auction.currentBid));
    }

    method AddValidator(e: Env, account: Address) returns (r: Result<Receipt, FeeError>)
      modifies `validators, `validatorList
      ensures Commits(Fees.AddValidator(old(View()), e, account), old(View()), View(), r)
    {
      if e.caller != admin {
        return Err(Unauthorized);
      }
      if account in validators {
        return Ok(Done);
      }
      validators := validators + {account};
      validatorList := validatorList + [account];
      return Ok(Done);
    }

    method RemoveValidator(e: Env, account: Address) returns (r: Result<Receipt, FeeError>)
      modifies `validators, `validatorList
      ensures Commits(Fees.RemoveValidator(old(View()), e, account), old(View()), View(), r)
    {
      hide Without;
      if e.caller != admin {
        return Err(Unauthorized);
      }
      validators := validators - {account};
      validatorList := Without(validatorList, account);
      return Ok(Done);
    }

    method SetDistributionRates(e: Env, validatorShare: nat, treasuryShare: nat) returns (r: Result<Receipt, FeeError>)
      modifies `validatorBp, `treasuryBp
      ensures Commits(Fees.SetDistributionRates(old(View()), e, validatorShare, treasuryShare), old(View()), View(), r)
    {
      if e.caller != admin {
        return Err(Unauthorized);
      }
      if SatU32(validatorShare + treasuryShare) > 10_000 {
        return Err(InvalidConfig);
      }
      validatorBp, treasuryBp := validatorShare, treasuryShare;
      return Ok(Done);
    }

    method DistributeFees(e: Env) returns (r: Result<Receipt, FeeError>)
      modifies `balance, `distributed, `pending, `records, `recordCount
      ensures Commits(Fees.DistributeFees(old(View()), e), old(View()), View(), r)
    {
      hide CreditAll, SatMul;
      if e.caller != admin {
        return Err(Unauthorized);
      }
      var amount := balance;
      if amount == 0 {
        return Ok(Done);
      }
      var validatorTotal := SatMul(amount, validatorBp) / BASIS_POINTS;
      var paid := 0;
      if |validatorList| > 0 && validatorTotal > 0 {
        var perValidator := validatorTotal / |validatorList|;
        CreditList(perValidator);
        paid := |validatorList| * perValidator;
      } else {
        NoShare(TreasuryView());
      }
      balance := 0;
      return Ok(Distributed(paid, SatSub(amount, paid)));
    }

    /** Credits every validator in list order. */
    method CreditList(perValidator: nat)
      modifies `distributed, `pending, `records, `recordCount
      ensures TreasuryView() == CreditAll(old(TreasuryView()), validatorList, perValidator)
    {
      hide Credit;
      var i := 0;
      while i < |validatorList|
        invariant 0 <= i <= |validatorList|
        invariant CreditAll(TreasuryView(), validatorList[i..], perValidator)
                  == CreditAll(old(TreasuryView()), validatorList, perValidator)
      {
        CreditValidator(validatorList[i], perValidator);
        assert validatorList[i..][1..] == validatorList[i + 1..];
        i := i + 1;
      }
    }

    method CreditValidator(account: Address, amount: nat)
      modifies `distributed, `pending, `records, `recordCount
      ensures TreasuryView() == Credit(old(TreasuryView()), account, amount)
    {
      hide SatAdd;
      var current := CountAt(pending, account);
      pending := pending[account := SatAdd(current, amount)];
      RecordReward(account, amount);
      distributed := SatAdd(distributed, amount);
    }

    method RecordReward(account: Address, amount: nat)
      modifies `records, `recordCount
      ensures recordCount == old(recordCount) + 1 && records == old(records)[recordCount := Record(account, amount)]
    {
      recordCount := recordCount + 1;
      records := records[recordCount := Record(account, amount)];
    }

    method ClaimRewards(e: Env) returns (r: Result<Receipt, FeeError>)
      modifies `pending
      ensures Commits(Fees.ClaimRewards(old(View()), e), old(View()), View(), r)
    {
      var amount := CountAt(pending, e.caller);
      if amount == 0 {
        return Ok(Claimed(e.caller, 0));
      }
      pending := pending - {e.caller};
      return Ok(Claimed(e.caller, amount));
    }
  }

  /** With no validators, or no share for them, nothing is paid. */
  lemma NoShare(t: Treasury)
    requires t.validatorList == [] || ValidatorTotal(t) == 0
    ensures PaidOut(t) == 0
  {
    hide ValidatorTotal;
    if t.validatorList != [] {
      assert PerValidator(t) == 0;
      assert |t.validatorList| * 0 == 0;
    }
  }
}
