/** What the fee manager asks of a message and what it does in return. */
module FeesRules {
  import opened Common
  import opened Fees
  import opened FeesTheorems

  // ---------------------------------------------------------------------------------------
  // Prices
  // ---------------------------------------------------------------------------------------

  /** Operations of the last hour, out of a hundred. */
  function Busy(c: Pricing, now: nat): nat {
    if now <= c.lastReset + 3600 then Min(c.recentOps, 100) else 0
  }

  lemma BusyIsCongestion(c: Pricing, now: nat)
    requires c.recentOps <= 100
    ensures CongestionIndex(c, now) == Busy(c, now) <= 100
  {
  }

  /** The surcharge in basis points: a fiftieth per point of sensitivity for every operation of the
      last hour, and the default demand charge in proportion to them, never above half. */
  function SurchargeOf(config: FeeConfig, demandBp: nat, busy: nat): nat {
    busy * config.sensitivity / 50 + Min(demandBp * busy / 100, 5000)
  }

  function PriceOf(config: FeeConfig, surcharge: nat): nat {
    Max(config.minFee, Min(config.baseFee * (10_000 + surcharge) / 10_000, config.maxFee))
  }

  lemma DemandIsProportional(c: Pricing, now: nat)
    requires c.recentOps <= 100 && c.standard.demandBp * 100 <= U32_MAX
    ensures DemandFactor(c, now) == c.standard.demandBp * Busy(c, now) / 100
  {
    hide CongestionIndex;
    BusyIsCongestion(c, now);
    ProductOrdered(Busy(c, now), 100, c.standard.demandBp);
  }

  lemma MultiplierIsSurcharge(config: FeeConfig, demandBp: nat, busy: nat)
    requires busy <= 100 && config.sensitivity <= U32_MAX
    ensures Multiplier(config, busy, demandBp * busy / 100) == 10_000 + SurchargeOf(config, demandBp, busy)
    ensures SurchargeOf(config, demandBp, busy) <= 5_000 + 2 * config.sensitivity
  {
    hide Multiplier;
    SurchargeMeans(config, busy, demandBp * busy / 100);
    ProductOrdered(busy, 100, config.sensitivity);
    FiftiethWithin(busy * config.sensitivity, config.sensitivity);
  }

  lemma Clamps(config: FeeConfig, busy: nat, demand: nat, surcharge: nat)
    requires Multiplier(config, busy, demand) == 10_000 + surcharge && config.baseFee * (10_000 + surcharge) <= U128_MAX
    ensures DynamicFee(config, busy, demand).Ok? <==> config.minFee <= config.maxFee
    ensures DynamicFee(config, busy, demand).Ok? ==> DynamicFee(config, busy, demand).value == PriceOf(config, surcharge)
  {
    hide Multiplier, SatMul;
    Exactly(config.baseFee, 10_000 + surcharge);
  }

  /** The price of an operation in plain arithmetic, while it fits: its own base fee, or the default
      one, plus the surcharge of the last hour, kept within its bounds; there is no price when
      the bounds are reversed. */
  lemma QuoteRule(c: Pricing, op: Operation, now: nat)
    requires c.recentOps <= 100 && c.standard.demandBp * 100 <= U32_MAX
    requires var config := if op in c.overrides then c.overrides[op] else c.standard;
             config.sensitivity <= U32_MAX && config.baseFee * (15_000 + 2 * config.sensitivity) <= U128_MAX
    ensures var config := if op in c.overrides then c.overrides[op] else c.standard;
            && (CalculateFee(c, op, now).Ok? <==> config.minFee <= config.maxFee)
            && (CalculateFee(c, op, now).Ok? ==>
                  CalculateFee(c, op, now).value == PriceOf(config, SurchargeOf(config, c.standard.demandBp, Busy(c, now))))
  {
    hide DynamicFee, CongestionIndex, DemandFactor, Multiplier, SurchargeOf, PriceOf;
    var config, busy := ConfigFor(c, op), Busy(c, now);
    BusyIsCongestion(c, now);
    DemandIsProportional(c, now);
    MultiplierIsSurcharge(config, c.standard.demandBp, busy);
    var surcharge := SurchargeOf(config, c.standard.demandBp, busy);
    ProductOrdered(10_000 + surcharge, 15_000 + 2 * config.sensitivity, config.baseFee);
    Clamps(config, busy, DemandFactor(c, now), surcharge);
  }

  lemma FiftiethWithin(x: nat, y: nat)
    requires x <= 100 * y
    ensures x / 50 <= 2 * y
  {
  }

  lemma Exactly(x: nat, y: nat)
    requires x * y <= U128_MAX
    ensures SatMul(x, y) == x * y
  {
  }

  /** An operation counts towards the last hour, up to a hundred, and the first after an hour
      starts a new one; nothing else about prices changes. */
  lemma CountingRule(c: Pricing, now: nat)
    requires c.recentOps <= 100
    ensures var c' := CountOperation(c, now);
            && Busy(c', now) == Min(Busy(c, now) + 1, 100) && c'.recentOps <= 100
            && c'.standard == c.standard && c'.overrides == c.overrides
            && c'.lastReset == if now <= c.lastReset + 3600 then c.lastReset else now
  {
  }

  /** Recording a fee is open to everybody; it counts the operation and books the fee. Collecting
      one needs a price and a transfer that covers the fee, not the price. */
  lemma CollectionRule(s: State, e: Env, op: Operation, amount: nat, transferred: nat)
    requires s.treasury.balance + amount <= U128_MAX && s.treasury.collected + amount <= U128_MAX
    ensures var (s', r) := RecordFeeCollected(s, e, amount).value;
            && r == Collected(amount) && s'.pricing == CountOperation(s.pricing, e.now)
            && s' == s.(pricing := s'.pricing, treasury := s'.treasury)
            && s'.treasury.balance == s.treasury.balance + amount && s'.treasury.collected == s.treasury.collected + amount
            && s'.treasury == s.treasury.(balance := s'.treasury.balance, collected := s'.treasury.collected)
    ensures CollectFee(s, e, op, amount, transferred).Ok?
            <==> CalculateFee(s.pricing, op, e.now).Ok? && amount <= transferred
    ensures CollectFee(s, e, op, amount, transferred).Ok? ==>
              CollectFee(s, e, op, amount, transferred) == RecordFeeCollected(s, e, amount)
  {
    hide CalculateFee, CountOperation;
  }

  /** Only the admin adjusts the default base fee: five percent up, within the maximum, after a
      busy hour, five percent down, within the minimum, after a quiet one. */
  lemma AdjustmentRule(s: State, e: Env)
    requires s.pricing.recentOps <= 100 && s.pricing.standard.baseFee * 105 <= U128_MAX
    ensures UpdateFeeParams(s, e).Ok? <==> e.caller == s.admin
    ensures UpdateFeeParams(s, e).Ok? ==>
              var (s', r), c, busy := UpdateFeeParams(s, e).value, s.pricing.standard, Busy(s.pricing, e.now);
              && r == Done && s' == s.(pricing := s'.pricing)
              && s'.pricing == s.pricing.(standard := s'.pricing.standard)
              && s'.pricing.standard == c.(baseFee := s'.pricing.standard.baseFee, lastUpdated := e.now)
              && s'.pricing.standard.baseFee == if busy > 70 then Min(c.baseFee * 105 / 100, c.maxFee)
                                                else if busy < 30 then Max(c.baseFee * 95 / 100, c.minFee)
                                                else c.baseFee
  {
    hide CongestionIndex;
    BusyIsCongestion(s.pricing, e.now);
  }

  /** The admin sets the price of one operation, within ordered bounds and not below the minimum. */
  lemma ConfigurationRule(s: State, e: Env, op: Operation, config: FeeConfig)
    ensures SetOperationConfig(s, e, op, config).Ok?
            <==> e.caller == s.admin && config.minFee <= config.maxFee && config.minFee <= config.baseFee
    ensures SetOperationConfig(s, e, op, config).Ok? ==>
              var (s', r) := SetOperationConfig(s, e, op, config).value;
              && r == Done && s' == s.(pricing := s.pricing.(overrides := s'.pricing.overrides))
              && (forall o: Operation :: ConfigFor(s'.pricing, o) == if o == op then config else ConfigFor(s.pricing, o))
  {
  }

  // ---------------------------------------------------------------------------------------
  // Distribution
  // ---------------------------------------------------------------------------------------

  /** The admin adds and removes validators, and divides at most the whole between the two sides. */
  lemma ValidatorRule(s: State, e: Env, a: Address, validatorBp: nat, treasuryBp: nat)
    ensures AddValidator(s, e, a).Ok? <==> e.caller == s.admin
    ensures RemoveValidator(s, e, a).Ok? <==> e.caller == s.admin
    ensures SetDistributionRates(s, e, validatorBp, treasuryBp).Ok? <==> e.caller == s.admin && validatorBp + treasuryBp <= 10_000
    ensures AddValidator(s, e, a).Ok? ==>
              var (s', r) := AddValidator(s, e, a).value;
              r == Done && s'.treasury.validators == s.treasury.validators + {a} && OnlyValidators(s, s')
    ensures RemoveValidator(s, e, a).Ok? ==>
              var (s', r) := RemoveValidator(s, e, a).value;
              r == Done && s'.treasury.validators == s.treasury.validators - {a} && OnlyValidators(s, s')
    ensures SetDistributionRates(s, e, validatorBp, treasuryBp).Ok? ==>
              SetDistributionRates(s, e, validatorBp, treasuryBp).value
              == (s.(treasury := s.treasury.(validatorBp := validatorBp, treasuryBp := treasuryBp)), Done)
  {
    hide Without;
  }

  ghost predicate OnlyValidators(s: State, s': State) {
    s' == s.(treasury := s.treasury.(validators := s'.treasury.validators, validatorList := s'.treasury.validatorList))
  }

  /** Crediting a list of accounts appends one record each, in order, and keeps the old ones. */
  lemma {:induction false} CreditsAreRecorded(t: Treasury, accounts: seq<Address>, amount: nat)
    requires forall i: nat :: i in t.records <==> 1 <= i <= t.recordCount
    ensures var t' := CreditAll(t, accounts, amount);
            && t' == t.(pending := t'.pending, records := t'.records, recordCount := t'.recordCount, distributed := t'.distributed)
            && t'.recordCount == t.recordCount + |accounts|
            && (forall i: nat :: i in t'.records <==> 1 <= i <= t'.recordCount)
            && (forall i: nat | i in t.records :: i in t'.records && t'.records[i] == t.records[i])
            && (forall k: nat | k < |accounts| ::
                  t.recordCount + 1 + k in t'.records && t'.records[t.recordCount + 1 + k] == Record(accounts[k], amount))
    decreases |accounts|
  {
    if accounts != [] {
      var t1 := Credit(t, accounts[0], amount);
      CreditsAreRecorded(t1, accounts[1..], amount);
      var t' := CreditAll(t, accounts, amount);
      assert t.recordCount + 1 in t1.records;
      forall k: nat | k < |accounts|
        ensures t.recordCount + 1 + k in t'.records && t'.records[t.recordCount + 1 + k] == Record(accounts[k], amount)
      {
        if k > 0 {
          assert t1.recordCount + 1 + (k - 1) in t'.records;
        }
      }
    }
  }

  /** The validators' part of the balance, and what each of them gets. */
  function ShareOf(t: Treasury): nat {
    t.balance * t.validatorBp / 10_000
  }

  function EachOf(t: Treasury): nat {
    if t.validatorList == [] then 0 else ShareOf(t) / |t.validatorList|
  }

  lemma SharesAgree(t: Treasury)
    requires t.balance * 10_000 <= U128_MAX && t.validatorBp <= 10_000
    ensures ValidatorTotal(t) == ShareOf(t)
    ensures t.validatorList != [] ==> PerValidator(t) == EachOf(t)
  {
    hide SatMul;
    ProductOrdered(t.validatorBp, 10_000, t.balance);
    Exactly(t.balance, t.validatorBp);
  }

  /** A distribution by the admin empties the treasury's balance, records one equal reward for each
      listed validator, in order, and reports what it paid and what is dropped; it leaves the
      collected total, the validators and the rates alone. */
  lemma DistributionRule(s: State, e: Env)
    requires s.treasury.balance * 10_000 <= U128_MAX && s.treasury.validatorBp <= 10_000
    requires forall i: nat :: i in s.treasury.records <==> 1 <= i <= s.treasury.recordCount
    ensures DistributeFees(s, e).Ok? <==> e.caller == s.admin
    ensures e.caller == s.admin && s.treasury.balance == 0 ==> DistributeFees(s, e) == Ok((s, Done))
    ensures e.caller == s.admin && s.treasury.balance > 0 ==>
              var (s', r), t, n := DistributeFees(s, e).value, s.treasury, |s.treasury.validatorList|;
              var share, each := ShareOf(t), EachOf(t);
              && r.Distributed? && r.paid == n * each && r.paid + r.stranded == t.balance
              && s' == s.(treasury := s'.treasury) && s'.treasury.balance == 0
              && s'.treasury == t.(balance := 0, pending := s'.treasury.pending, records := s'.treasury.records,
                                   recordCount := s'.treasury.recordCount, distributed := s'.treasury.distributed)
              && (share == 0 || n == 0 ==> s'.treasury == t.(balance := 0))
              && (share > 0 && n > 0 ==>
                    && s'.treasury.recordCount == t.recordCount + n
                    && (forall k: nat | k < n ::
                          && t.recordCount + 1 + k in s'.treasury.records
                          && s'.treasury.records[t.recordCount + 1 + k] == Record(t.validatorList[k], each)))
  {
    hide CreditAll, ShareOf, EachOf, ValidatorTotal, PerValidator;
    var t, n := s.treasury, |s.treasury.validatorList|;
    SharesAgree(t);
    NoneEach(t);
    PaidOutWithin(t);
    if n > 0 {
      CreditsAreRecorded(t, t.validatorList, PerValidator(t));
    }
  }

  lemma NoneEach(t: Treasury)
    ensures t.validatorList == [] ==> EachOf(t) == 0
    ensures ShareOf(t) == 0 ==> |t.validatorList| * EachOf(t) == 0
  {
    if ShareOf(t) == 0 && t.validatorList != [] {
      Nothing(|t.validatorList|);
    }
  }

  /** Everybody takes its whole pending reward, once, and nothing else changes. */
  lemma ClaimingRule(s: State, e: Env)
    ensures var (s', r), t := ClaimRewards(s, e).value, s.treasury;
            && ClaimRewards(s, e).Ok? && r == Claimed(e.caller, CountAt(t.pending, e.caller))
            && CountAt(s'.treasury.pending, e.caller) == 0
            && (forall a: Address | a != e.caller :: CountAt(s'.treasury.pending, a) == CountAt(t.pending, a))
            && s' == s.(treasury := t.(pending := s'.treasury.pending))
  {
  }

  // ---------------------------------------------------------------------------------------
  // Auctions
  // ---------------------------------------------------------------------------------------

  /** Only auction `id` is rewritten, and keeps its terms. */
  ghost predicate OnlyAuction(s: State, s': State, id: nat) {
    && s' == s.(house := s.house.(auctions := s'.house.auctions, bids := s'.house.bids))
    && s'.house.auctions.Keys == s.house.auctions.Keys && id in s.house.auctions
    && (forall i: nat | i in s.house.auctions && i != id :: s'.house.auctions[i] == s.house.auctions[i])
  }

  /** Anybody opens an auction that has a price, under the next number and for as long as asked;
      the price is booked as a fee. */
  lemma OpeningRule(w: World, e: Env, property: nat, minBid: nat, duration: nat)
    requires HouseSound(w.s.house, w.g)
    requires var quote := CalculateFee(w.s.pricing, PremiumListingBid, e.now);
             quote.Ok? ==> w.s.treasury.balance + quote.value <= U128_MAX && w.s.treasury.collected + quote.value <= U128_MAX
    ensures CreatePremiumAuction(w.s, e, property, minBid, duration).Ok?
            <==> CalculateFee(w.s.pricing, PremiumListingBid, e.now).Ok?
    ensures CreatePremiumAuction(w.s, e, property, minBid, duration).Ok? ==>
              var (s', r), id := CreatePremiumAuction(w.s, e, property, minBid, duration).value, w.s.house.count + 1;
              var fee := CalculateFee(w.s.pricing, PremiumListingBid, e.now).value;
              && r == Opened(id, fee) && id !in w.s.house.auctions
              && s' == w.s.(treasury := s'.treasury, house := s'.house)
              && s'.treasury == w.s.treasury.(balance := w.s.treasury.balance + fee, collected := w.s.treasury.collected + fee)
              && s'.house.count == id && s'.house.bids == w.s.house.bids
              && s'.house.auctions.Keys == w.s.house.auctions.Keys + {id}
              && (forall i: nat | i in w.s.house.auctions :: s'.house.auctions[i] == w.s.house.auctions[i])
              && var auction := s'.house.auctions[id];
              && auction.property == property && auction.seller == e.caller && auction.minBid == minBid
              && auction.currentBid == 0 && auction.currentBidder.None? && !auction.settled && auction.feePaid == fee
              && (e.now + duration <= U64_MAX ==> auction.endTime == e.now + duration)
  {
    hide CalculateFee, AuctionSound;
  }

  /** A bid is accepted before the end of an open auction when it reaches the minimum and beats the
      current one; it is then the current one and on record for its bidder. */
  lemma BiddingRule(s: State, e: Env, id: nat, amount: nat)
    ensures PlaceBid(s, e, id, amount).Ok?
            <==> && id in s.house.auctions && !s.house.auctions[id].settled && e.now < s.house.auctions[id].endTime
                 && s.house.auctions[id].minBid <= amount && s.house.auctions[id].currentBid < amount
    ensures PlaceBid(s, e, id, amount).Ok? ==>
              var (s', r) := PlaceBid(s, e, id, amount).value;
              && r == Bidden(id, Bid(e.caller, amount)) && OnlyAuction(s, s', id)
              && s'.house.auctions[id] == s.house.auctions[id].(currentBid := amount, currentBidder := Some(e.caller))
              && s'.house.bids.Keys == s.house.bids.Keys + {(id, e.caller)} && s'.house.bids[(id, e.caller)] == Bid(e.caller, amount)
              && (forall k: (nat, Address) | k in s.house.bids && k != (id, e.caller) :: s'.house.bids[k] == s.house.bids[k])
  {
  }

  /** An auction with a bid is settled once, by anybody, when it has ended. */
  lemma SettlingRule(s: State, e: Env, id: nat)
    ensures SettleAuction(s, e, id).Ok?
            <==> && id in s.house.auctions && !s.house.auctions[id].settled && s.house.auctions[id].endTime <= e.now
                 && s.house.auctions[id].currentBidder.Some?
    ensures SettleAuction(s, e, id).Ok? ==>
              var (s', r), auction := SettleAuction(s, e, id).value, s.house.auctions[id];
              && r == Settled(id, auction.currentBidder.value, auction.currentBid) && OnlyAuction(s, s', id)
              && s'.house.auctions[id] == auction.(settled := true) && s'.house.bids == s.house.bids
  {
  }

  // ---------------------------------------------------------------------------------------
  // Every run
  // ---------------------------------------------------------------------------------------

  lemma StepSettles(s: State, e: Env, m: Message)
    requires s.pricing.recentOps <= 100 && s.treasury.validatorBp + s.treasury.treasuryBp <= 10_000
    ensures var s' := if Handle(s, e, m).Ok? then Handle(s, e, m).value.0 else s;
            && s'.admin == s.admin && s'.pricing.recentOps <= 100
            && s'.treasury.validatorBp + s'.treasury.treasuryBp <= 10_000
  {
    hide CalculateFee, CongestionIndex, Without, BidFault, SettleFault, CreditAll, PaidOut;
    if m.MDistribute? {
      RatesStay(s.treasury);
    }
  }

  lemma RatesStay(t: Treasury)
    ensures Distribute(t).validatorBp == t.validatorBp && Distribute(t).treasuryBp == t.treasuryBp
  {
    hide CreditAll;
    if t.validatorList != [] {
      CreditsKeepRates(t, t.validatorList, PerValidator(t));
    }
  }

  lemma {:induction false} CreditsKeepRates(t: Treasury, accounts: seq<Address>, amount: nat)
    ensures CreditAll(t, accounts, amount).validatorBp == t.validatorBp && CreditAll(t, accounts, amount).treasuryBp == t.treasuryBp
    decreases |accounts|
  {
    if accounts != [] {
      CreditsKeepRates(Credit(t, accounts[0], amount), accounts[1..], amount);
    }
  }

  /** In every run the admin is the creator, at most a hundred operations count, and no more than
      the whole is divided. A new manager has the settings of the code. */
  lemma {:induction false} EveryRunStaysConfigured(e: Env, baseFee: nat, minFee: nat, maxFee: nat, calls: seq<Call>)
    ensures var s := Run(New(e, baseFee, minFee, maxFee), calls).s;
            && s.admin == e.caller && s.pricing.recentOps <= 100 && s.treasury.validatorBp + s.treasury.treasuryBp <= 10_000
            && (calls == [] ==>
                  && s.pricing == Pricing(map[], FeeConfig(baseFee, minFee, maxFee, 80, 500, e.now), 0, e.now)
                  && s.treasury.balance == 0 && s.treasury.validatorBp == s.treasury.treasuryBp == 5_000
                  && s.treasury.validators == {} && s.house == House(map[], map[], 0))
  {
    hide Handle, Post;
    if calls != [] {
      var before, c := calls[..|calls| - 1], calls[|calls| - 1];
      EveryRunStaysConfigured(e, baseFee, minFee, maxFee, before);
      StepSettles(Run(New(e, baseFee, minFee, maxFee), before).s, c.env, c.message);
    }
  }
}
