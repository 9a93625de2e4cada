/** What every run of the fee manager keeps: no fee is created or paid twice, validators are
    enumerated exactly, and an auction always stands at its highest bid. */
module FeesTheorems {
  import opened Common
  import opened Fees

  /** What the receipts of a run add up to. */
  datatype Ledger = Ledger(inflow: nat, claimed: nat, stranded: nat, logs: map<nat, seq<Bid>>)

  function Post(g: Ledger, r: Receipt): Ledger {
    match r
    case Done => g
    case Collected(amount) => g.(inflow := g.inflow + amount)
    case Opened(id, fee) => g.(inflow := g.inflow + fee, logs := g.logs[id := []])
    case Bidden(id, bid) => g.(logs := g.logs[id := ListAt(g.logs, id) + [bid]])
    case Settled(_, _, _) => g
    case Distributed(_, stranded) => g.(stranded := g.stranded + stranded)
    case Claimed(_, amount) => g.(claimed := g.claimed + amount)
  }

  // ---------------------------------------------------------------------------------------
  // Pricing
  // ---------------------------------------------------------------------------------------

  /** A fee is quoted exactly when the bounds are in order, lies between them, and never falls
      when congestion or demand rises. */
  lemma FeeFollowsDemand(config: FeeConfig, congestion: nat, congestion': nat, demand: nat, demand': nat)
    requires congestion <= congestion' && demand <= demand'
    ensures var low, high := DynamicFee(config, congestion, demand), DynamicFee(config, congestion', demand');
            && (low.Ok? <==> config.minFee <= config.maxFee)
            && (low.Ok? ==> high.Ok? && config.minFee <= low.value <= high.value <= config.maxFee)
  {
    hide SatMul;
    var extra := MAX_CONGESTION_MULTIPLIER - 100;
    SatOrdered(congestion, congestion', config.sensitivity, config.sensitivity);
    SatOrdered(SatMul(congestion, config.sensitivity), SatMul(congestion', config.sensitivity), extra, extra);
    var m, m' := Multiplier(config, congestion, demand), Multiplier(config, congestion', demand');
    assert m <= m';
    SatOrdered(config.baseFee, config.baseFee, m, m');
  }

  /** With the 32-bit inputs of the code nothing saturates: a point of congestion adds a
      fiftieth of a basis point per point of sensitivity, and demand adds at most half. */
  lemma SurchargeMeans(config: FeeConfig, congestion: nat, demand: nat)
    requires congestion <= U32_MAX && config.sensitivity <= U32_MAX
    ensures Multiplier(config, congestion, demand) == 10_000 + congestion * config.sensitivity / 50 + Min(demand, 5000)
  {
    hide SatMul;
    ProductOrdered(congestion, U32_MAX, config.sensitivity);
    ProductOrdered(config.sensitivity, U32_MAX, U32_MAX);
    Surcharge(congestion, config.sensitivity);
  }

  lemma Surcharge(congestion: nat, sensitivity: nat)
    requires congestion * sensitivity <= U32_MAX * U32_MAX
    ensures SatMul(SatMul(congestion, sensitivity), MAX_CONGESTION_MULTIPLIER - 100) / 10_000 == congestion * sensitivity / 50
  {
    assert SatMul(congestion, sensitivity) == congestion * sensitivity;
  }

  /** The price stays within 152 percent of the base fee whatever the demand is if and only if
      congestion adds at most two percent, which no check on a configuration ensures. */
  lemma SurchargeIsCapped(config: FeeConfig, congestion: nat)
    requires congestion <= U32_MAX && config.sensitivity <= U32_MAX
    ensures (forall demand: nat :: Multiplier(config, congestion, demand) <= 15_200)
            <==> congestion * config.sensitivity / 50 <= 200
  {
    hide Multiplier;
    forall demand: nat
      ensures Multiplier(config, congestion, demand) == 10_000 + congestion * config.sensitivity / 50 + Min(demand, 5000)
    {
      SurchargeMeans(config, congestion, demand);
    }
    assert Multiplier(config, congestion, 5000) == 10_000 + congestion * config.sensitivity / 50 + 5000;
  }

  /** A configuration the admin may install that triples the price under full congestion. */
  lemma SensitivityIsUnchecked(s: State, e: Env, op: Operation, config: FeeConfig)
    requires e.caller == s.admin && config.minFee <= config.baseFee && config.minFee <= config.maxFee
    requires config.sensitivity == 10_000
    ensures SetOperationConfig(s, e, op, config).Ok?
    ensures ConfigFor(SetOperationConfig(s, e, op, config).value.0.pricing, op) == config
    ensures Multiplier(config, 100, 0) == 30_000
  {
    SurchargeMeans(config, 100, 0);
  }

  /** An automatic adjustment of a base fee within its bounds keeps it there if and only if
      congestion is moderate or the minimum is at most a hundredth of the largest balance:
      above that, 105 times the base saturates and the raise becomes a cut. */
  lemma AdjustmentKeepsBounds(s: State, e: Env)
    requires e.caller == s.admin && InBounds(s.pricing.standard)
    ensures InBounds(UpdateFeeParams(s, e).value.0.pricing.standard)
            <==> CongestionIndex(s.pricing, e.now) <= 70 || s.pricing.standard.minFee <= U128_MAX / 100
  {
    hide CongestionIndex;
  }

  predicate InBounds(c: FeeConfig) {
    c.minFee <= c.baseFee <= c.maxFee <= U128_MAX
  }

  // ---------------------------------------------------------------------------------------
  // Treasury
  // ---------------------------------------------------------------------------------------

  function Amounts(): (Address, nat) -> int {
    (a: Address, amount: nat) => amount
  }

  function RecordAmounts(): (nat, Record) -> int {
    (i: nat, record: Record) => record.amount
  }

  ghost predicate Balanced(t: Treasury, g: Ledger) {
    && t.collected == g.inflow
    && t.balance + t.distributed + g.stranded == g.inflow
    && SumBy(t.pending, Amounts()) + g.claimed == t.distributed
    && SumBy(t.records, RecordAmounts()) == t.distributed
    && t.validatorBp + t.treasuryBp <= 10_000
  }

  /** The list that a distribution walks is the set of validators, each of them once. */
  ghost predicate Enumerated(t: Treasury) {
    && NoDuplicates(t.validatorList)
    && (forall a: Address :: a in t.validatorList <==> a in t.validators)
    && (forall i: nat :: i in t.records <==> 1 <= i <= t.recordCount)
  }

  lemma PendingWithin(t: Treasury, a: Address)
    ensures CountAt(t.pending, a) <= SumBy(t.pending, Amounts())
  {
    SumTerm<Address, nat>(t.pending, Amounts());
    if a in t.pending {
      assert Amounts()(a, t.pending[a]) <= SumBy(t.pending, Amounts());
    }
  }

  lemma CreditAdds(t: Treasury, a: Address, amount: nat)
    requires SumBy(t.pending, Amounts()) <= t.distributed && t.distributed + amount <= U128_MAX
    requires forall i: nat :: i in t.records <==> 1 <= i <= t.recordCount
    ensures var t' := Credit(t, a, amount);
            && t' == t.(pending := t'.pending, records := t'.records, recordCount := t.recordCount + 1,
                        distributed := t.distributed + amount)
            && (forall i: nat :: i in t'.records <==> 1 <= i <= t'.recordCount)
            && SumBy(t'.pending, Amounts()) == SumBy(t.pending, Amounts()) + amount
            && SumBy(t'.records, RecordAmounts()) == SumBy(t.records, RecordAmounts()) + amount
            && t'.pending == t.pending[a := CountAt(t.pending, a) + amount]
  {
    PendingWithin(t, a);
    SumInsert<Address, nat>(t.pending, a, CountAt(t.pending, a) + amount, Amounts());
    SumInsert<nat, Record>(t.records, t.recordCount + 1, Record(a, amount), RecordAmounts());
  }

  /** Crediting a list adds `amount` once per entry. */
  lemma {:induction false} CreditAllAdds(t: Treasury, accounts: seq<Address>, amount: nat)
    requires SumBy(t.pending, Amounts()) <= t.distributed && t.distributed + |accounts| * amount <= U128_MAX
    requires forall i: nat :: i in t.records <==> 1 <= i <= t.recordCount
    ensures var t' := CreditAll(t, accounts, amount);
            && t' == t.(pending := t'.pending, records := t'.records, recordCount := t.recordCount + |accounts|,
                        distributed := t.distributed + |accounts| * amount)
            && (forall i: nat :: i in t'.records <==> 1 <= i <= t'.recordCount)
            && SumBy(t'.pending, Amounts()) == SumBy(t.pending, Amounts()) + |accounts| * amount
            && SumBy(t'.records, RecordAmounts()) == SumBy(t.records, RecordAmounts()) + |accounts| * amount
    decreases |accounts|
  {
    hide Credit;
    if accounts != [] {
      OneMore(|accounts| - 1, amount);
      CreditAdds(t, accounts[0], amount);
      CreditAllAdds(Credit(t, accounts[0], amount), accounts[1..], amount);
    }
  }

  lemma OneMore(n: nat, x: nat)
    ensures (n + 1) * x == n * x + x && n * x >= 0
  {
  }

  /** Crediting a list without duplicates raises exactly its accounts, each by `amount`. */
  lemma {:induction false} CreditAllReaches(t: Treasury, accounts: seq<Address>, amount: nat, a: Address)
    requires SumBy(t.pending, Amounts()) <= t.distributed && t.distributed + |accounts| * amount <= U128_MAX
    requires forall i: nat :: i in t.records <==> 1 <= i <= t.recordCount
    requires NoDuplicates(accounts)
    ensures CountAt(CreditAll(t, accounts, amount).pending, a)
            == CountAt(t.pending, a) + if a in accounts then amount else 0
    decreases |accounts|
  {
    hide Credit;
    if accounts != [] {
      OneMore(|accounts| - 1, amount);
      CreditAdds(t, accounts[0], amount);
      CreditAllReaches(Credit(t, accounts[0], amount), accounts[1..], amount, a);
    }
  }

  lemma FloorWithin(n: nat, total: nat)
    requires n > 0
    ensures total - (n - 1) <= n * (total / n) <= total
  {
  }

  lemma ShareWithin(balance: nat, bp: nat)
    requires bp <= BASIS_POINTS
    ensures SatMul(balance, bp) / BASIS_POINTS <= balance
  {
    assert balance * bp <= balance * BASIS_POINTS;
  }

  lemma PaidOutWithin(t: Treasury)
    requires t.validatorBp <= BASIS_POINTS
    ensures PaidOut(t) <= ValidatorTotal(t) <= t.balance
    ensures t.validatorList != [] ==> ValidatorTotal(t) - (|t.validatorList| - 1) <= PaidOut(t)
  {
    ShareWithin(t.balance, t.validatorBp);
    if t.validatorList != [] {
      FloorWithin(|t.validatorList|, ValidatorTotal(t));
    }
  }

  lemma DistributePays(t: Treasury, g: Ledger)
    requires Balanced(t, g) && Enumerated(t) && g.inflow <= U128_MAX
    ensures var t' := Distribute(t);
            && t' == t.(balance := 0, pending := t'.pending, records := t'.records, recordCount := t'.recordCount,
                        distributed := t.distributed + PaidOut(t))
            && (forall i: nat :: i in t'.records <==> 1 <= i <= t'.recordCount)
            && SumBy(t'.pending, Amounts()) == SumBy(t.pending, Amounts()) + PaidOut(t)
            && SumBy(t'.records, RecordAmounts()) == SumBy(t.records, RecordAmounts()) + PaidOut(t)
  {
    hide CreditAll, ValidatorTotal;
    PaidOutWithin(t);
    if t.validatorList != [] {
      if ValidatorTotal(t) > 0 {
        CreditAllAdds(t, t.validatorList, PerValidator(t));
      } else {
        assert PerValidator(t) == 0;
        Nothing(|t.validatorList|);
      }
    }
  }

  lemma Nothing(n: nat)
    ensures n * 0 == 0
  {
  }

  lemma DistributeKeeps(t: Treasury, g: Ledger)
    requires Balanced(t, g) && Enumerated(t) && g.inflow <= U128_MAX
    ensures PaidOut(t) <= t.balance
    ensures Balanced(Distribute(t), g.(stranded := g.stranded + (t.balance - PaidOut(t))))
  {
    hide Distribute, PaidOut;
    PaidOutWithin(t);
    DistributePays(t, g);
  }

  lemma {:induction false} CreditAllEnumerates(t: Treasury, accounts: seq<Address>, amount: nat)
    requires Enumerated(t)
    ensures Enumerated(CreditAll(t, accounts, amount))
    decreases |accounts|
  {
    if accounts != [] {
      CreditAllEnumerates(Credit(t, accounts[0], amount), accounts[1..], amount);
    }
  }

  lemma DistributeEnumerates(t: Treasury)
    requires Enumerated(t)
    ensures Enumerated(Distribute(t))
  {
    hide CreditAll, ValidatorTotal;
    if t.validatorList != [] {
      CreditAllEnumerates(t, t.validatorList, PerValidator(t));
    }
  }

  /** One distribution credits every validator the same amount and nobody else anything; in
      total it pays the validators' share less a remainder smaller than their number, and it
      empties the treasury whatever the treasury's own share is. */
  lemma DistributionIsFair(t: Treasury, g: Ledger, a: Address)
    requires Balanced(t, g) && Enumerated(t) && g.inflow <= U128_MAX
    ensures CountAt(Distribute(t).pending, a)
            == CountAt(t.pending, a) + if a in t.validators then PerValidator(t) else 0
    ensures Distribute(t).distributed == t.distributed + PaidOut(t) && Distribute(t).balance == 0
    ensures PaidOut(t) <= ValidatorTotal(t)
    ensures t.validatorList != [] ==> ValidatorTotal(t) - (|t.validatorList| - 1) <= PaidOut(t)
  {
    hide CreditAll, ValidatorTotal;
    PaidOutWithin(t);
    DistributePays(t, g);
    if t.validatorList != [] {
      if ValidatorTotal(t) > 0 {
        CreditAllReaches(t, t.validatorList, PerValidator(t), a);
      } else {
        assert PerValidator(t) == 0;
      }
    }
  }

  lemma CollectKeeps(t: Treasury, g: Ledger, amount: nat)
    requires Balanced(t, g) && g.inflow + amount <= U128_MAX
    ensures Balanced(Collect(t, amount), g.(inflow := g.inflow + amount))
  {
  }

  lemma ValidatorsKeep(s: State, e: Env, account: Address)
    requires Enumerated(s.treasury)
    ensures var r := AddValidator(s, e, account); r.Ok? ==> Enumerated(r.value.0.treasury)
    ensures var r := RemoveValidator(s, e, account); r.Ok? ==> Enumerated(r.value.0.treasury)
  {
    hide Without;
    WithoutNoDuplicates(s.treasury.validatorList, account);
  }

  lemma ClaimKeeps(s: State, g: Ledger, e: Env)
    requires Balanced(s.treasury, g)
    ensures var (s', r) := ClaimRewards(s, e).value; Balanced(s'.treasury, Post(g, r))
  {
    if e.caller in s.treasury.pending {
      SumRemove<Address, nat>(s.treasury.pending, e.caller, Amounts());
    }
  }

  // ---------------------------------------------------------------------------------------
  // Auctions
  // ---------------------------------------------------------------------------------------

  ghost predicate Rising(log: seq<Bid>) {
    forall i, j | 0 <= i < j < |log| :: log[i].amount < log[j].amount
  }

  /** The latest bid of one account. */
  function LatestBid(log: seq<Bid>, a: Address): Option<Bid> {
    if log == [] then None
    else if log[|log| - 1].bidder == a then Some(log[|log| - 1])
    else LatestBid(log[..|log| - 1], a)
  }

  function RecordedBid(h: House, id: nat, a: Address): Option<Bid> {
    if (id, a) in h.bids then Some(h.bids[(id, a)]) else None
  }

  /** An auction is what its bids so far make it: they rise from the minimum, the last one is
      current, and each account's latest is on record. */
  ghost predicate AuctionSound(h: House, id: nat, log: seq<Bid>)
    requires id in h.auctions
  {
    var auction := h.auctions[id];
    && Rising(log)
    && (forall i | 0 <= i < |log| :: log[i].amount > 0 && log[i].amount >= auction.minBid)
    && auction.currentBid == (if log == [] then 0 else log[|log| - 1].amount)
    && auction.currentBidder == (if log == [] then None else Some(log[|log| - 1].bidder))
    && (forall a: Address :: RecordedBid(h, id, a) == LatestBid(log, a))
  }

  ghost predicate HouseSound(h: House, g: Ledger) {
    && (forall id: nat | id in h.auctions :: 1 <= id <= h.count && id in g.logs && AuctionSound(h, id, g.logs[id]))
    && (forall k: (nat, Address) | k in h.bids :: k.0 in h.auctions)
  }

  lemma OpenKeeps(h: House, g: Ledger, auction: Auction, fee: nat)
    requires HouseSound(h, g) && auction.currentBid == 0 && auction.currentBidder == None
    ensures HouseSound(OpenAuction(h, auction), Post(g, Opened(h.count + 1, fee)))
  {
    var h', g' := OpenAuction(h, auction), Post(g, Opened(h.count + 1, fee));
    forall id: nat | id in h'.auctions ensures 1 <= id <= h'.count && id in g'.logs && AuctionSound(h', id, g'.logs[id]) {
      if id == h.count + 1 {
        forall a: Address ensures RecordedBid(h', id, a) == LatestBid([], a) {
          assert (id, a) in h.bids ==> (id, a).0 in h.auctions;
        }
      } else {
        assert forall a: Address :: RecordedBid(h', id, a) == RecordedBid(h, id, a);
      }
    }
  }

  lemma BidRises(log: seq<Bid>, bid: Bid)
    requires Rising(log) && (log == [] || bid.amount > log[|log| - 1].amount)
    ensures Rising(log + [bid])
  {
    forall i, j | 0 <= i < j < |log + [bid]| ensures (log + [bid])[i].amount < (log + [bid])[j].amount {
      if j == |log| && i < |log| - 1 {
        assert log[i].amount < log[|log| - 1].amount;
      }
    }
  }

  lemma BidSound(h: House, id: nat, log: seq<Bid>, bid: Bid)
    requires id in h.auctions && AuctionSound(h, id, log)
    requires bid.amount >= h.auctions[id].minBid && bid.amount > h.auctions[id].currentBid
    ensures AuctionSound(TakeBid(h, id, bid), id, log + [bid])
  {
    hide Rising;
    var log', h' := log + [bid], TakeBid(h, id, bid);
    assert log'[..|log|] == log;
    BidRises(log, bid);
    forall a: Address ensures RecordedBid(h', id, a) == LatestBid(log', a) {
      assert RecordedBid(h, id, a) == LatestBid(log, a);
    }
  }

  lemma BidElsewhere(h: House, id: nat, other: nat, log: seq<Bid>, bid: Bid)
    requires id in h.auctions && other in h.auctions && other != id && AuctionSound(h, other, log)
    ensures AuctionSound(TakeBid(h, id, bid), other, log)
  {
    var h' := TakeBid(h, id, bid);
    assert forall a: Address :: RecordedBid(h', other, a) == RecordedBid(h, other, a);
  }

  lemma BidKeeps(h: House, g: Ledger, id: nat, bid: Bid, now: nat)
    requires HouseSound(h, g) && BidFault(h, id, bid.amount, now).None?
    ensures HouseSound(TakeBid(h, id, bid), Post(g, Bidden(id, bid)))
  {
    hide AuctionSound;
    var h', g' := TakeBid(h, id, bid), Post(g, Bidden(id, bid));
    forall j: nat | j in h'.auctions ensures 1 <= j <= h'.count && j in g'.logs && AuctionSound(h', j, g'.logs[j]) {
      if j == id {
        BidSound(h, id, g.logs[id], bid);
      } else {
        BidElsewhere(h, id, j, g.logs[j], bid);
      }
    }
  }

  lemma SettleKeeps(h: House, g: Ledger, id: nat)
    requires HouseSound(h, g) && id in h.auctions
    ensures HouseSound(h.(auctions := h.auctions[id := h.auctions[id].(settled := true)]), g)
  {
    var h' := h.(auctions := h.auctions[id := h.auctions[id].(settled := true)]);
    forall j: nat | j in h'.auctions ensures 1 <= j <= h'.count && j in g.logs && AuctionSound(h', j, g.logs[j]) {
      assert forall a: Address :: RecordedBid(h', j, a) == RecordedBid(h, j, a);
    }
  }

  lemma {:induction false} LatestIsIn(log: seq<Bid>, a: Address)
    ensures LatestBid(log, a).Some? ==> LatestBid(log, a).value in log && LatestBid(log, a).value.bidder == a
  {
    if log != [] && log[|log| - 1].bidder != a {
      LatestIsIn(log[..|log| - 1], a);
    }
  }

  // ---------------------------------------------------------------------------------------
  // Every run
  // ---------------------------------------------------------------------------------------

  datatype Call = Call(env: Env, message: Message)

  datatype World = World(s: State, g: Ledger)

  function Exec(w: World, c: Call): World {
    match Handle(w.s, c.env, c.message)
    case Ok((s, r)) => World(s, Post(w.g, r))
    case Err(_) => w
  }

  function Run(start: State, calls: seq<Call>): World {
    if calls == [] then World(start, Ledger(0, 0, 0, map[]))
    else Exec(Run(start, calls[..|calls| - 1]), calls[|calls| - 1])
  }

  lemma ExecConserves(w: World, c: Call)
    requires Balanced(w.s.treasury, w.g) && Enumerated(w.s.treasury) && Exec(w, c).g.inflow <= U128_MAX
    ensures Balanced(Exec(w, c).s.treasury, Exec(w, c).g)
  {
    hide Enumerated, Distribute, PaidOut, Without, CountOperation, TakeBid, BidFault, SettleFault, CongestionIndex,
         CalculateFee, OpenAuction, ClaimRewards;
    match c.message
    case MRecord(amount) => CollectKeeps(w.s.treasury, w.g, amount);
    case MCollect(op, amount, transferred) =>
      if CollectFee(w.s, c.env, op, amount, transferred).Ok? {
        CollectKeeps(w.s.treasury, w.g, amount);
      }
    case MOpen(property, minBid, duration) =>
      if CalculateFee(w.s.pricing, PremiumListingBid, c.env.now).Ok? {
        CollectKeeps(w.s.treasury, w.g, CalculateFee(w.s.pricing, PremiumListingBid, c.env.now).value);
      }
    case MDistribute => DistributeKeeps(w.s.treasury, w.g);
    case MClaim =>
      ClaimKeeps(w.s, w.g, c.env);
    case _ =>
  }

  lemma ExecEnumerates(w: World, c: Call)
    requires Enumerated(w.s.treasury)
    ensures Enumerated(Exec(w, c).s.treasury)
  {
    hide Distribute, PaidOut, CountOperation, TakeBid, BidFault, SettleFault, CongestionIndex, CalculateFee,
         OpenAuction, AddValidator, RemoveValidator;
    match c.message
    case MAdd(account) => ValidatorsKeep(w.s, c.env, account);
    case MRemove(account) => ValidatorsKeep(w.s, c.env, account);
    case MDistribute => DistributeEnumerates(w.s.treasury);
    case _ =>
  }

  lemma MoneyOnly(h: House, g: Ledger, g': Ledger)
    requires HouseSound(h, g) && g'.logs == g.logs
    ensures HouseSound(h, g')
  {
  }

  lemma SettleFound(h: House, id: nat, now: nat)
    requires SettleFault(h, id, now).None?
    ensures id in h.auctions
  {
  }

  lemma ExecHolds(w: World, c: Call)
    requires HouseSound(w.s.house, w.g)
    ensures HouseSound(Exec(w, c).s.house, Exec(w, c).g)
  {
    hide HouseSound, Distribute, PaidOut, Without, CountOperation, TakeBid, BidFault, SettleFault, CongestionIndex,
         CalculateFee, OpenAuction, Collect;
    var h, g := w.s.house, w.g;
    match c.message
    case MOpen(property, minBid, duration) =>
      if CalculateFee(w.s.pricing, PremiumListingBid, c.env.now).Ok? {
        var fee := CalculateFee(w.s.pricing, PremiumListingBid, c.env.now).value;
        OpenKeeps(h, g, Auction(property, c.env.caller, minBid, 0, None, SatTime(c.env.now, duration), false, fee), fee);
      }
    case MBid(id, amount) =>
      if BidFault(h, id, amount, c.env.now).None? {
        BidKeeps(h, g, id, Bid(c.env.caller, amount), c.env.now);
      }
    case MSettle(id) =>
      if SettleFault(h, id, c.env.now).None? {
        SettleFound(h, id, c.env.now);
        SettleKeeps(h, g, id);
      }
    case _ => MoneyOnly(h, g, Exec(w, c).g);
  }

  lemma NewGood(e: Env, baseFee: nat, minFee: nat, maxFee: nat)
    ensures var s, g := New(e, baseFee, minFee, maxFee), Ledger(0, 0, 0, map[]);
            Balanced(s.treasury, g) && Enumerated(s.treasury) && HouseSound(s.house, g)
  {
  }

  lemma {:induction false} RunHolds(start: State, calls: seq<Call>)
    requires Enumerated(start.treasury) && HouseSound(start.house, Ledger(0, 0, 0, map[]))
    ensures var w := Run(start, calls); Enumerated(w.s.treasury) && HouseSound(w.s.house, w.g)
  {
    hide Enumerated, HouseSound, Exec;
    if calls != [] {
      RunHolds(start, calls[..|calls| - 1]);
      var w := Run(start, calls[..|calls| - 1]);
      ExecEnumerates(w, calls[|calls| - 1]);
      ExecHolds(w, calls[|calls| - 1]);
    }
  }

  lemma InflowGrows(w: World, c: Call)
    ensures w.g.inflow <= Exec(w, c).g.inflow
  {
    hide Handle;
  }

  lemma RunBalanced(e: Env, baseFee: nat, minFee: nat, maxFee: nat, calls: seq<Call>)
    requires Run(New(e, baseFee, minFee, maxFee), calls).g.inflow <= U128_MAX
    ensures var w := Run(New(e, baseFee, minFee, maxFee), calls); Balanced(w.s.treasury, w.g)
  {
    hide Run, Balanced, Enumerated, HouseSound;
    NewGood(e, baseFee, minFee, maxFee);
    RunBalances(New(e, baseFee, minFee, maxFee), calls);
  }

  lemma {:induction false} RunBalances(start: State, calls: seq<Call>)
    requires Balanced(start.treasury, Ledger(0, 0, 0, map[]))
    requires Enumerated(start.treasury) && HouseSound(start.house, Ledger(0, 0, 0, map[]))
    requires Run(start, calls).g.inflow <= U128_MAX
    ensures var w := Run(start, calls); Balanced(w.s.treasury, w.g)
  {
    hide Balanced, Enumerated, HouseSound, Exec;
    if calls != [] {
      var w := Run(start, calls[..|calls| - 1]);
      InflowGrows(w, calls[|calls| - 1]);
      RunBalances(start, calls[..|calls| - 1]);
      RunHolds(start, calls[..|calls| - 1]);
      ExecConserves(w, calls[|calls| - 1]);
    }
  }

  lemma RunGood(e: Env, baseFee: nat, minFee: nat, maxFee: nat, calls: seq<Call>)
    ensures var w := Run(New(e, baseFee, minFee, maxFee), calls); Enumerated(w.s.treasury) && HouseSound(w.s.house, w.g)
  {
    hide Run, Enumerated, HouseSound;
    NewGood(e, baseFee, minFee, maxFee);
    RunHolds(New(e, baseFee, minFee, maxFee), calls);
  }

  /** Fees are conserved: what came in is still in the treasury, credited to validators, or
      dropped by a distribution, and what was credited is still pending or was claimed. */
  lemma EveryRunConservesFees(e: Env, baseFee: nat, minFee: nat, maxFee: nat, calls: seq<Call>)
    requires Run(New(e, baseFee, minFee, maxFee), calls).g.inflow <= U128_MAX
    ensures var w := Run(New(e, baseFee, minFee, maxFee), calls);
            var t := w.s.treasury;
            && t.balance + t.distributed <= t.collected == w.g.inflow
            && t.collected == t.balance + t.distributed + w.g.stranded
            && t.distributed == SumBy(t.pending, Amounts()) + w.g.claimed
            && t.distributed == SumBy(t.records, RecordAmounts())
  {
    hide Run, New, Balanced;
    RunBalanced(e, baseFee, minFee, maxFee, calls);
    var w := Run(New(e, baseFee, minFee, maxFee), calls);
    BalancedMeans(w.s.treasury, w.g);
  }

  lemma BalancedMeans(t: Treasury, g: Ledger)
    requires Balanced(t, g)
    ensures t.balance + t.distributed <= t.collected == g.inflow
    ensures t.collected == t.balance + t.distributed + g.stranded
    ensures t.distributed == SumBy(t.pending, Amounts()) + g.claimed
    ensures t.distributed == SumBy(t.records, RecordAmounts())
  {
  }

  lemma EveryRunEnumeratesValidators(e: Env, baseFee: nat, minFee: nat, maxFee: nat, calls: seq<Call>, a: Address)
    ensures var t := Run(New(e, baseFee, minFee, maxFee), calls).s.treasury;
            NoDuplicates(t.validatorList) && (a in t.validatorList <==> a in t.validators)
  {
    RunGood(e, baseFee, minFee, maxFee, calls);
  }

  /** The current bid is the highest on record, only its bidder holds it, and every accepted
      bid of the run beat all earlier ones. */
  lemma EveryAuctionStandsAtItsHighestBid(e: Env, baseFee: nat, minFee: nat, maxFee: nat, calls: seq<Call>, id: nat)
    requires id in Run(New(e, baseFee, minFee, maxFee), calls).s.house.auctions
    ensures var w := Run(New(e, baseFee, minFee, maxFee), calls);
            var auction := w.s.house.auctions[id];
            && id in w.g.logs && Rising(w.g.logs[id])
            && (forall bid | bid in w.g.logs[id] :: auction.minBid <= bid.amount <= auction.currentBid)
            && (auction.currentBidder.None? ==> auction.currentBid == 0 && w.g.logs[id] == [])
            && (auction.currentBidder.Some? ==>
                  (id, auction.currentBidder.value) in w.s.house.bids
                  && w.s.house.bids[(id, auction.currentBidder.value)].amount == auction.currentBid)
            && (forall a: Address | (id, a) in w.s.house.bids ::
                  && w.s.house.bids[(id, a)].amount <= auction.currentBid
                  && (w.s.house.bids[(id, a)].amount == auction.currentBid <==> auction.currentBidder == Some(a)))
  {
    hide Run, Enumerated;
    RunGood(e, baseFee, minFee, maxFee, calls);
    var w := Run(New(e, baseFee, minFee, maxFee), calls);
    HighestBid(w.s.house, id, w.g.logs[id]);
  }

  lemma HighestBid(h: House, id: nat, log: seq<Bid>)
    requires id in h.auctions && AuctionSound(h, id, log)
    ensures var auction := h.auctions[id];
            && (auction.currentBidder.Some? ==> RecordedBid(h, id, auction.currentBidder.value) == Some(log[|log| - 1]))
            && (forall a: Address | (id, a) in h.bids ::
                  && h.bids[(id, a)].amount <= auction.currentBid
                  && (h.bids[(id, a)].amount == auction.currentBid <==> auction.currentBidder == Some(a)))
  {
    forall a: Address | (id, a) in h.bids
      ensures h.bids[(id, a)].amount <= h.auctions[id].currentBid
      ensures h.bids[(id, a)].amount == h.auctions[id].currentBid <==> h.auctions[id].currentBidder == Some(a)
    {
      assert RecordedBid(h, id, a) == LatestBid(log, a);
      LatestIsIn(log, a);
    }
  }

  /** Settling pays out on the highest bid of all, and only an auction that got one settles. */
  lemma WinnerOutbidEverybody(e: Env, baseFee: nat, minFee: nat, maxFee: nat, calls: seq<Call>, last: Env, id: nat)
    requires SettleAuction(Run(New(e, baseFee, minFee, maxFee), calls).s, last, id).Ok?
    ensures var w := Run(New(e, baseFee, minFee, maxFee), calls);
            && id in w.g.logs && w.g.logs[id] != []
            && var log := w.g.logs[id];
            var n := |log| - 1;
            && SettleAuction(w.s, last, id).value.1 == Settled(id, log[n].bidder, log[n].amount)
            && (forall i | 0 <= i < n :: log[i].amount < log[n].amount)
  {
    hide Run, Enumerated;
    RunGood(e, baseFee, minFee, maxFee, calls);
  }

  lemma StepFreezes(w: World, c: Call, id: nat)
    requires id in w.s.house.auctions && w.s.house.auctions[id].settled && id <= w.s.house.count
    ensures var h, h' := w.s.house, Exec(w, c).s.house;
            && id in h'.auctions && h'.auctions[id] == h.auctions[id] && id <= h'.count
            && (forall a: Address :: RecordedBid(h', id, a) == RecordedBid(h, id, a))
  {
    hide CalculateFee, CountOperation, Distribute, PaidOut, Without, CongestionIndex;
  }

  /** A settled auction and its bids never change again. */
  lemma {:induction false} SettledAuctionsAreFrozen(e: Env, baseFee: nat, minFee: nat, maxFee: nat, calls: seq<Call>, k: nat, id: nat)
    requires k <= |calls|
    requires var h := Run(New(e, baseFee, minFee, maxFee), calls[..k]).s.house; id in h.auctions && h.auctions[id].settled
    ensures var h, h' := Run(New(e, baseFee, minFee, maxFee), calls[..k]).s.house, Run(New(e, baseFee, minFee, maxFee), calls).s.house;
            && id in h'.auctions && h'.auctions[id] == h.auctions[id] && id <= h'.count
            && (forall a: Address :: RecordedBid(h', id, a) == RecordedBid(h, id, a))
  {
    hide Handle, Enumerated, RecordedBid;
    if k == |calls| {
      assert calls[..k] == calls;
      RunGood(e, baseFee, minFee, maxFee, calls);
    } else {
      var before, c := calls[..|calls| - 1], calls[|calls| - 1];
      assert before[..k] == calls[..k];
      SettledAuctionsAreFrozen(e, baseFee, minFee, maxFee, before, k, id);
      StepFreezes(Run(New(e, baseFee, minFee, maxFee), before), c, id);
    }
  }

  // ---------------------------------------------------------------------------------------
  // The default configuration over a run
  // ---------------------------------------------------------------------------------------

  /** Messages adjust the base fee of the default configuration and nothing else of it. */
  ghost predicate SameSettings(c: FeeConfig, c': FeeConfig) {
    c'.sensitivity == c.sensitivity && c'.demandBp == c.demandBp && c'.minFee == c.minFee && c'.maxFee == c.maxFee
  }

  lemma StepSettings(w: World, c: Call)
    ensures SameSettings(w.s.pricing.standard, Exec(w, c).s.pricing.standard)
    ensures !c.message.MUpdate? ==> Exec(w, c).s.pricing.standard == w.s.pricing.standard
  {
    hide CalculateFee, CongestionIndex, Distribute, PaidOut, Without, BidFault, SettleFault, TakeBid, Collect, OpenAuction, Post;
  }

  /** In every run the default configuration keeps the constructor's settings, so with its own
      demand its price stays within 106.6 percent of the base fee. */
  lemma {:induction false} EveryRunKeepsDefaultSettings(e: Env, baseFee: nat, minFee: nat, maxFee: nat, calls: seq<Call>, now: nat)
    ensures var c := Run(New(e, baseFee, minFee, maxFee), calls).s.pricing;
            && c.standard.sensitivity == 80 && c.standard.demandBp == 500
            && c.standard.minFee == minFee && c.standard.maxFee == maxFee
            && Multiplier(c.standard, CongestionIndex(c, now), DemandFactor(c, now)) <= 10_660
  {
    hide Exec, Multiplier, CongestionIndex, DemandFactor;
    if calls != [] {
      EveryRunKeepsDefaultSettings(e, baseFee, minFee, maxFee, calls[..|calls| - 1], now);
      StepSettings(Run(New(e, baseFee, minFee, maxFee), calls[..|calls| - 1]), calls[|calls| - 1]);
    }
    DefaultPrice(Run(New(e, baseFee, minFee, maxFee), calls).s.pricing, now);
  }

  lemma DefaultPrice(c: Pricing, now: nat)
    requires c.standard.sensitivity == 80 && c.standard.demandBp == 500
    ensures Multiplier(c.standard, CongestionIndex(c, now), DemandFactor(c, now)) <= 10_660
  {
    SurchargeMeans(c.standard, CongestionIndex(c, now), DemandFactor(c, now));
  }

  /** `k` fees of nothing, recorded by anybody at the time of creation. */
  function Records(e: Env, k: nat): seq<Call> {
    if k == 0 then [] else Records(e, k - 1) + [Call(e, MRecord(0))]
  }

  lemma {:induction false} RecordsCongest(e: Env, baseFee: nat, minFee: nat, maxFee: nat, k: nat)
    requires k <= 100
    ensures var s, start := Run(New(e, baseFee, minFee, maxFee), Records(e, k)).s, New(e, baseFee, minFee, maxFee);
            s.pricing == start.pricing.(recentOps := k) && s.admin == start.admin
  {
    hide Collect, Post;
    if k > 0 {
      RecordsCongest(e, baseFee, minFee, maxFee, k - 1);
      var calls := Records(e, k);
      assert calls[..|calls| - 1] == Records(e, k - 1);
    }
  }

  /** Full congestion, then an adjustment: a minimum above a hundredth of the largest balance
      ends up above the base fee. */
  lemma CongestedAdjustment(e: Env, baseFee: nat, minFee: nat, maxFee: nat)
    requires minFee <= baseFee <= maxFee <= U128_MAX && minFee > U128_MAX / 100
    ensures !InBounds(Run(New(e, baseFee, minFee, maxFee), Records(e, 100) + [Call(e, MUpdate)]).s.pricing.standard)
  {
    hide Records, Post;
    RecordsCongest(e, baseFee, minFee, maxFee, 100);
    var calls := Records(e, 100) + [Call(e, MUpdate)];
    assert calls[..|calls| - 1] == Records(e, 100);
    var s := Run(New(e, baseFee, minFee, maxFee), Records(e, 100)).s;
    FullyCongested(s.pricing, e.now);
    AdjustmentKeepsBounds(s, e);
  }

  lemma FullyCongested(c: Pricing, now: nat)
    requires c.recentOps == 100 && c.lastReset == now
    ensures CongestionIndex(c, now) == 100
  {
  }

  lemma {:induction false} ModestMinimumHolds(e: Env, baseFee: nat, minFee: nat, maxFee: nat, calls: seq<Call>)
    requires minFee <= baseFee <= maxFee <= U128_MAX && minFee <= U128_MAX / 100
    ensures var c := Run(New(e, baseFee, minFee, maxFee), calls).s.pricing.standard; InBounds(c) && c.minFee == minFee
  {
    hide Exec;
    if calls != [] {
      var before, c := calls[..|calls| - 1], calls[|calls| - 1];
      ModestMinimumHolds(e, baseFee, minFee, maxFee, before);
      var w := Run(New(e, baseFee, minFee, maxFee), before);
      StepSettings(w, c);
      if c.message.MUpdate? {
        UpdateStep(w, c);
      }
    }
  }

  lemma UpdateStep(w: World, c: Call)
    requires c.message.MUpdate? && InBounds(w.s.pricing.standard) && w.s.pricing.standard.minFee <= U128_MAX / 100
    ensures InBounds(Exec(w, c).s.pricing.standard)
  {
    hide CongestionIndex, InBounds;
    if c.env.caller == w.s.admin {
      AdjustmentKeepsBounds(w.s, c.env);
    }
  }

  /** A base fee that starts within its bounds stays there in every run if and only if the
      minimum is at most a hundredth of the largest balance; the constructor does not check it. */
  lemma BaseFeeStaysInBounds(e: Env, baseFee: nat, minFee: nat, maxFee: nat)
    requires minFee <= baseFee <= maxFee <= U128_MAX
    ensures (forall calls: seq<Call> :: InBounds(Run(New(e, baseFee, minFee, maxFee), calls).s.pricing.standard))
            <==> minFee <= U128_MAX / 100
  {
    hide Run, InBounds, Records;
    if minFee <= U128_MAX / 100 {
      forall calls: seq<Call> ensures InBounds(Run(New(e, baseFee, minFee, maxFee), calls).s.pricing.standard) {
        ModestMinimumHolds(e, baseFee, minFee, maxFee, calls);
      }
    } else {
      CongestedAdjustment(e, baseFee, minFee, maxFee);
    }
  }
}
