/** The fee manager: congestion pricing, the treasury that pays validators, and the premium
    listing auctions, as functions from storage to storage. */
module Fees {
  import opened Common

  const BASIS_POINTS: nat := 10_000
  const CONGESTION_WINDOW: nat := 100
  const MAX_CONGESTION_MULTIPLIER: nat := 300
  const U32_MAX: nat := 0xFFFF_FFFF

  datatype Operation =
    | RegisterProperty | TransferProperty | UpdateMetadata | CreateEscrow | ReleaseEscrow
    | PremiumListingBid | IssueBadge | OracleUpdate | BridgeTransfer

  /** `Clamped` stands for the panic of a clamp whose bounds are the wrong way round. */
  datatype FeeError =
    | Unauthorized | AuctionNotFound | AuctionEnded | AuctionNotEnded | BidTooLow | AlreadySettled
    | InvalidConfig | InsufficientTransfer | Clamped

  datatype FeeConfig = FeeConfig(
    baseFee: nat, minFee: nat, maxFee: nat, sensitivity: nat, demandBp: nat, lastUpdated: nat)

  datatype Pricing = Pricing(
    overrides: map<Operation, FeeConfig>, standard: FeeConfig, recentOps: nat, lastReset: nat)

  datatype Record = Record(account: Address, amount: nat)

  datatype Treasury = Treasury(
    balance: nat, collected: nat, distributed: nat, pending: map<Address, nat>,
    records: map<nat, Record>, recordCount: nat,
    validators: set<Address>, validatorList: seq<Address>, validatorBp: nat, treasuryBp: nat)

  datatype Auction = Auction(
    property: nat, seller: Address, minBid: nat, currentBid: nat, currentBidder: Option<Address>,
    endTime: nat, settled: bool, feePaid: nat)

  datatype Bid = Bid(bidder: Address, amount: nat)

  datatype House = House(auctions: map<nat, Auction>, bids: map<(nat, Address), Bid>, count: nat)

  datatype State = State(admin: Address, pricing: Pricing, treasury: Treasury, house: House)

  datatype Env = Env(caller: Address, now: nat)

  /** What a successful message reports. */
  datatype Receipt =
    | Done
    | Collected(amount: nat)
    | Opened(id: nat, fee: nat)
    | Bidden(id: nat, bid: Bid)
    | Settled(id: nat, winner: Address, amount: nat)
    | Distributed(paid: nat, stranded: nat)
    | Claimed(who: Address, amount: nat)

  type Answer = Result<(State, Receipt), FeeError>

  // ---------------------------------------------------------------------------------------
  // Pricing
  // ---------------------------------------------------------------------------------------

  function SatU32(x: nat): nat {
    if x <= U32_MAX then x else U32_MAX
  }

  function Min(x: nat, y: nat): nat {
    if x <= y then x else y
  }

  function Max(x: nat, y: nat): nat {
    if x >= y then x else y
  }

  const WINDOW_SECONDS: nat := 3600

  function CongestionIndex(c: Pricing, now: nat): nat {
    if SatSub(now, c.lastReset) > WINDOW_SECONDS then 0
    else Min(SatU32(c.recentOps * 100) / CONGESTION_WINDOW, 100)
  }

  function DemandFactor(c: Pricing, now: nat): nat {
    SatU32(c.standard.demandBp * CongestionIndex(c, now)) / 100
  }

  /** Price of an operation in basis points of its base fee, before clamping. */
  function Multiplier(config: FeeConfig, congestion: nat, demandBp: nat): nat {
    SatAdd(SatAdd(10_000, SatMul(SatMul(congestion, config.sensitivity), MAX_CONGESTION_MULTIPLIER - 100) / 10_000),
           Min(demandBp, 5000))
  }

  function DynamicFee(config: FeeConfig, congestion: nat, demandBp: nat): Result<nat, FeeError> {
    if config.minFee > config.maxFee then Err(Clamped)
    else
      var fee := SatMul(config.baseFee, Multiplier(config, congestion, demandBp)) / BASIS_POINTS;
      Ok(if fee < config.minFee then config.minFee else if fee > config.maxFee then config.maxFee else fee)
  }

  function ConfigFor(c: Pricing, op: Operation): FeeConfig {
    if op in c.overrides then c.overrides[op] else c.standard
  }

  function CalculateFee(c: Pricing, op: Operation, now: nat): Result<nat, FeeError> {
    DynamicFee(ConfigFor(c, op), CongestionIndex(c, now), DemandFactor(c, now))
  }

  /** One more operation in the congestion window, which restarts after an hour. */
  function CountOperation(c: Pricing, now: nat): Pricing {
    if SatSub(now, c.lastReset) > WINDOW_SECONDS then c.(recentOps := 1, lastReset := now)
    else c.(recentOps := Min(SatU32(c.recentOps + 1), CONGESTION_WINDOW))
  }

  function UpdateFeeParams(s: State, e: Env): Answer {
    if e.caller != s.admin then Err(Unauthorized)
    else
      var congestion, config := CongestionIndex(s.pricing, e.now), s.pricing.standard;
      var base := if congestion > 70 then Min(SatMul(config.baseFee, 105) / 100, config.maxFee)
                  else if congestion < 30 then Max(SatMul(config.baseFee, 95) / 100, config.minFee)
                  else config.baseFee;
      Ok((s.(pricing := s.pricing.(standard := config.(baseFee := base, lastUpdated := e.now))), Done))
  }

  function SetOperationConfig(s: State, e: Env, op: Operation, config: FeeConfig): Answer {
    if e.caller != s.admin then Err(Unauthorized)
    else if config.minFee > config.maxFee || config.baseFee < config.minFee then Err(InvalidConfig)
    else Ok((s.(pricing := s.pricing.(overrides := s.pricing.overrides[op := config])), Done))
  }

  // ---------------------------------------------------------------------------------------
  // Treasury
  // ---------------------------------------------------------------------------------------

  function Collect(t: Treasury, amount: nat): Treasury {
    t.(balance := SatAdd(t.balance, amount), collected := SatAdd(t.collected, amount))
  }

  function RecordFeeCollected(s: State, e: Env, amount: nat): Answer {
    Ok((s.(pricing := CountOperation(s.pricing, e.now), treasury := Collect(s.treasury, amount)), Collected(amount)))
  }

  /** Collects a fee with the value transferred; the quote is computed but not enforced. */
  function CollectFee(s: State, e: Env, op: Operation, amount: nat, transferred: nat): Answer {
    var quote := CalculateFee(s.pricing, op, e.now);
    if quote.Err? then Err(quote.error)
    else if transferred < amount then Err(InsufficientTransfer)
    else RecordFeeCollected(s, e, amount)
  }

  function AddValidator(s: State, e: Env, account: Address): Answer {
    if e.caller != s.admin then Err(Unauthorized)
    else if account in s.treasury.validators then Ok((s, Done))
    else
      Ok((s.(treasury := s.treasury.(validators := s.treasury.validators + {account},
                                     validatorList := s.treasury.validatorList + [account])), Done))
  }

  function RemoveValidator(s: State, e: Env, account: Address): Answer {
    if e.caller != s.admin then Err(Unauthorized)
    else
      Ok((s.(treasury := s.treasury.(validators := s.treasury.validators - {account},
                                     validatorList := Without(s.treasury.validatorList, account))), Done))
  }

  function SetDistributionRates(s: State, e: Env, validatorBp: nat, treasuryBp: nat): Answer {
    if e.caller != s.admin then Err(Unauthorized)
    else if SatU32(validatorBp + treasuryBp) > 10_000 then Err(InvalidConfig)
    else Ok((s.(treasury := s.treasury.(validatorBp := validatorBp, treasuryBp := treasuryBp)), Done))
  }

  /** Adds one validator's reward and its record. */
  function Credit(t: Treasury, account: Address, amount: nat): Treasury {
    t.(pending := t.pending[account := SatAdd(CountAt(t.pending, account), amount)],
       recordCount := t.recordCount + 1,
       records := t.records[t.recordCount + 1 := Record(account, amount)],
       distributed := SatAdd(t.distributed, amount))
  }

  function CreditAll(t: Treasury, accounts: seq<Address>, amount: nat): Treasury
    decreases |accounts|
  {
    if accounts == [] then t else CreditAll(Credit(t, accounts[0], amount), accounts[1..], amount)
  }

  /** The validators' part of the balance. */
  function ValidatorTotal(t: Treasury): nat {
    SatMul(t.balance, t.validatorBp) / BASIS_POINTS
  }

  function PerValidator(t: Treasury): nat
    requires t.validatorList != []
  {
    ValidatorTotal(t) / |t.validatorList|
  }

  /** What one distribution pays out; the rest of the balance is dropped. */
  function PaidOut(t: Treasury): nat {
    if t.validatorList == [] then 0 else |t.validatorList| * PerValidator(t)
  }

  function Distribute(t: Treasury): Treasury {
    if t.validatorList != [] && ValidatorTotal(t) > 0
    then CreditAll(t, t.validatorList, PerValidator(t)).(balance := 0)
    else t.(balance := 0)
  }

  function DistributeFees(s: State, e: Env): Answer {
    if e.caller != s.admin then Err(Unauthorized)
    else if s.treasury.balance == 0 then Ok((s, Done))
    else
      var paid := PaidOut(s.treasury);
      Ok((s.(treasury := Distribute(s.treasury)), Distributed(paid, SatSub(s.treasury.balance, paid))))
  }

  function ClaimRewards(s: State, e: Env): Answer {
    var amount := CountAt(s.treasury.pending, e.caller);
    if amount == 0 then Ok((s, Claimed(e.caller, 0)))
    else Ok((s.(treasury := s.treasury.(pending := s.treasury.pending - {e.caller})), Claimed(e.caller, amount)))
  }

  // ---------------------------------------------------------------------------------------
  // Auctions
  // ---------------------------------------------------------------------------------------

  function OpenAuction(h: House, auction: Auction): House {
    h.(count := h.count + 1, auctions := h.auctions[h.count + 1 := auction])
  }

  function CreatePremiumAuction(s: State, e: Env, property: nat, minBid: nat, duration: nat): Answer {
    match CalculateFee(s.pricing, PremiumListingBid, e.now)
    case Err(error) => Err(error)
    case Ok(fee) =>
      var auction := Auction(property, e.caller, minBid, 0, None, SatTime(e.now, duration), false, fee);
      Ok((s.(treasury := if fee > 0 then Collect(s.treasury, fee) else s.treasury,
             house := OpenAuction(s.house, auction)),
          Opened(s.house.count + 1, fee)))
  }

  function BidFault(h: House, id: nat, amount: nat, now: nat): Option<FeeError> {
    if id !in h.auctions then Some(AuctionNotFound)
    else if h.auctions[id].settled then Some(AlreadySettled)
    else if now >= h.auctions[id].endTime then Some(AuctionEnded)
    else if amount < h.auctions[id].minBid || amount <= h.auctions[id].currentBid then Some(BidTooLow)
    else None
  }

  function TakeBid(h: House, id: nat, bid: Bid): House
    requires id in h.auctions
  {
    h.(auctions := h.auctions[id := h.auctions[id].(currentBid := bid.amount, currentBidder := Some(bid.bidder))],
       bids := h.bids[(id, bid.bidder) := bid])
  }

  function PlaceBid(s: State, e: Env, id: nat, amount: nat): Answer {
    var fault := BidFault(s.house, id, amount, e.now);
    if fault.Some? then Err(fault.value)
    else Ok((s.(house := TakeBid(s.house, id, Bid(e.caller, amount))), Bidden(id, Bid(e.caller, amount))))
  }

  function SettleFault(h: House, id: nat, now: nat): Option<FeeError> {
    if id !in h.auctions then Some(AuctionNotFound)
    else if h.auctions[id].settled then Some(AlreadySettled)
    else if now < h.auctions[id].endTime then Some(AuctionNotEnded)
    else if h.auctions[id].currentBidder.None? then Some(AuctionNotFound)
    else None
  }

  function SettleAuction(s: State, e: Env, id: nat): Answer {
    var fault := SettleFault(s.house, id, e.now);
    if fault.Some? then Err(fault.value)
    else
      var auction := s.house.auctions[id];
      Ok((s.(house := s.house.(auctions := s.house.auctions[id := auction.(settled := true)])),
          Settled(id, auction.currentBidder.value, auction.currentBid)))
  }

  // ---------------------------------------------------------------------------------------
  // Runs
  // ---------------------------------------------------------------------------------------

  datatype Message =
    | MRecord(amount: nat)
    | MCollect(op: Operation, amount: nat, transferred: nat)
    | MUpdate
    | MConfig(op: Operation, config: FeeConfig)
    | MOpen(property: nat, minBid: nat, duration: nat)
    | MBid(id: nat, amount: nat)
    | MSettle(id: nat)
    | MAdd(account: Address)
    | MRemove(account: Address)
    | MRates(validatorBp: nat, treasuryBp: nat)
    | MDistribute
    | MClaim

  function Handle(s: State, e: Env, m: Message): Answer {
    match m
    case MRecord(amount) => RecordFeeCollected(s, e, amount)
    case MCollect(op, amount, transferred) => CollectFee(s, e, op, amount, transferred)
    case MUpdate => UpdateFeeParams(s, e)
    case MConfig(op, config) => SetOperationConfig(s, e, op, config)
    case MOpen(property, minBid, duration) => CreatePremiumAuction(s, e, property, minBid, duration)
    case MBid(id, amount) => PlaceBid(s, e, id, amount)
    case MSettle(id) => SettleAuction(s, e, id)
    case MAdd(account) => AddValidator(s, e, account)
    case MRemove(account) => RemoveValidator(s, e, account)
    case MRates(validatorBp, treasuryBp) => SetDistributionRates(s, e, validatorBp, treasuryBp)
    case MDistribute => DistributeFees(s, e)
    case MClaim => ClaimRewards(s, e)
  }

  const NO_TREASURY: Treasury := Treasury(0, 0, 0, map[], map[], 0, {}, [], 5000, 5000)

  function New(e: Env, baseFee: nat, minFee: nat, maxFee: nat): State {
    State(e.caller, Pricing(map[], FeeConfig(baseFee, minFee, maxFee, 80, 500, e.now), 0, e.now),
          NO_TREASURY, House(map[], map[], 0))
  }
}
