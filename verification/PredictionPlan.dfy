/**
 * `planPredictionMatches`: simulate fills one maker at a time on a disposable overlay of the accounts. On a
 * consistent snapshot it computes exactly the walk over the flat price-time sequence, its overlay is a consistent
 * book after every step, and its ledger conserves value.
 */
module PredictionPlan {
  import opened Base
  import opened Settlement
  import opened BookHeap
  import opened Removal
  import opened Updates
  import opened Insertion
  import opened Ledger
  import opened Walk

  datatype Target = Target(maker: Key, level: Key, next: Option<Key>, worse: Option<Key>, recipient: Option<Pubkey>)

  datatype Quote = Quote(fill: nat, notional: nat, fee: nat, cash: nat)

  datatype Step = Step(target: Target, requested: nat, fill: nat, notional: nat, fee: nat)

  datatype Result = Result(steps: seq<Step>, remaining: nat, totalNotional: nat, totalFee: nat, totalCash: nat, stop: Stop,
                           final: Heap, funds: Funds, fees: nat)

  // ------------------------------------------------------------ one maker's checks

  predicate ValidLevel(h: Heap, l: ListId, price: u64) {
    var k := LevelKey(h.root.key, l, price);
    && k in h.levels
    && var level := h.levels[k];
    level.list == l && level.price == price && level.count > 0 && level.total > 0 && level.first.Some? && level.last.Some?
  }

  predicate ValidOrder(h: Heap, l: ListId, price: u64, k: Key) {
    && k in h.orders
    && var o := h.orders[k];
    && k == OrderKey(h.root.key, o.id)
    && o.priceLevel == LevelKey(h.root.key, l, price) && o.list == l && o.price == price
    && o.status.Open? && 0 < o.remaining <= o.quantity && 0 < o.id < h.root.nextId
  }

  predicate EndpointsValid(level: Level, maker: Order, k: Key) {
    if level.count == 1 then level.last == Some(k) && maker.next.None? && level.total == maker.remaining
    else level.last != Some(k) && maker.next.Some? && maker.next != Some(k) && level.total > maker.remaining
  }

  /** `readPredictionMatchTarget` for the makers' list; None stands for a thrown error. */
  function ReadMatchTarget(h: Heap, l: ListId, quantity: nat): Option<Target>
    requires Legal(h.root.kind, l)
  {
    var best := Best(h.root, l);
    if best.None? || !ValidLevel(h, l, best.value) then None
    else
      var lk := LevelKey(h.root.key, l, best.value);
      var level := h.levels[lk];
      var rk := level.first.value;
      if level.better.Some? || !ValidOrder(h, l, best.value, rk) || h.orders[rk].previous.Some?
         || !EndpointsValid(level, h.orders[rk], rk) then None
      else
        var maker := h.orders[rk];
        if quantity < maker.remaining then Some(Target(rk, lk, None, None, None))
        else if level.count > 1 then
          var next := maker.next.value;
          if !ValidOrder(h, l, best.value, next) || h.orders[next].previous != Some(rk) || h.orders[next].id <= maker.id then None
          else Some(Target(rk, lk, Some(next), None, None))
        else if level.worse.None? then Some(Target(rk, lk, None, None, Some(level.rentPayer)))
        else
          var wk := LevelKey(h.root.key, l, level.worse.value);
          if !ValidLevel(h, l, level.worse.value) || h.levels[wk].better != best || !Precedes(l.side, best.value, level.worse.value) then None
          else Some(Target(rk, lk, None, Some(wk), Some(level.rentPayer)))
  }

  /** What the read must return on a well-formed book: the head maker and exactly the accounts its removal repairs. */
  ghost predicate HeadTarget(h: Heap, v: View, l: ListId, quantity: nat, t: Target)
    requires l in v.prices
  {
    && v.prices[l] != []
    && t.level == LevelKey(h.root.key, l, v.prices[l][0])
    && t.level in v.queue && v.queue[t.level] != [] && t.maker == OrderKey(h.root.key, v.queue[t.level][0])
    && t.maker in h.orders && t.level in h.levels && h.orders[t.maker].priceLevel == t.level
    && var hints := ClientHints(h, t.maker);
    if quantity < h.orders[t.maker].remaining then t.next.None? && t.worse.None? && t.recipient.None?
    else t.next == hints.next && t.worse == hints.worse && t.recipient == hints.recipient
  }

  lemma SoundOrderIsValid(h: Heap, v: View, k: Key, j: nat)
    requires WellFormed(h, v) && k in v.queue && j < |v.queue[k]|
    ensures k.LevelKey? && k.book == h.root.key && ValidOrder(h, k.list, k.price, OrderKey(h.root.key, v.queue[k][j]))
    ensures var o := h.orders[OrderKey(h.root.key, v.queue[k][j])];
      && o.previous == OrderLink(h.root.key, Before(v.queue[k], j)) && o.next == OrderLink(h.root.key, After(v.queue[k], j))
      && o.id == v.queue[k][j]
  {
    assert OwnLevel(h, v, k) && Queue(h, k, v.queue[k]);
    assert Node(h, k, v.queue[k], j);
    hide WellFormed, Backed, OnGrid;
  }

  lemma SoundLevelIsValid(h: Heap, v: View, l: ListId, p: nat)
    requires WellFormed(h, v) && l in v.prices && p < |v.prices[l]|
    ensures ValidLevel(h, l, v.prices[l][p])
    ensures LevelKey(h.root.key, l, v.prices[l][p]) in v.queue
    ensures Rung(h, l, v.prices[l], p)
  {
    RungChecks(h, v, l, p);
    LevelChecks(h, v, LevelKey(h.root.key, l, v.prices[l][p]));
    hide WellFormed;
  }

  /** On a well-formed book the read finds exactly the head maker, and fails only on an empty side. */
  lemma ReadFindsHead(h: Heap, v: View, l: ListId, quantity: nat)
    requires WellFormed(h, v) && l in v.prices
    ensures Legal(h.root.kind, l)
    ensures var t := ReadMatchTarget(h, l, quantity);
      && t.Some? == (v.prices[l] != [])
      && (t.Some? ==> HeadTarget(h, v, l, quantity, t.value))
  {
    hide Linked, NoStray;
    FlatEmpty(h, v, l);
    if v.prices[l] != [] {
      HeadReadable(h, v, l, quantity);
    }
  }

  lemma HeadReadable(h: Heap, v: View, l: ListId, quantity: nat)
    requires WellFormed(h, v) && l in v.prices && v.prices[l] != [] && Legal(h.root.kind, l) && Best(h.root, l) == Some(v.prices[l][0])
    ensures var t := ReadMatchTarget(h, l, quantity);
      t.Some? && HeadTarget(h, v, l, quantity, t.value)
  {
    hide Linked, NoStray;
    var lk, rk := HeadFacts(h, v, l);
    var ps, q := v.prices[l], v.queue[lk];
    QueueEnds(h, v, lk);
    SoundLevelIsValid(h, v, l, 0);
    SoundOrderIsValid(h, v, lk, 0);
    TotalExceeds(h, v, lk, 0);
    LevelChecks(h, v, lk);
    if |q| > 1 { SoundOrderIsValid(h, v, lk, 1); }
    if |ps| > 1 { SoundLevelIsValid(h, v, l, 1); }
    assert EndpointsValid(h.levels[lk], h.orders[rk], rk);
  }

  /** `validatePredictionMatch` against a target just read from the same overlay; None stands for a thrown error. */
  function ValidateMatch(h: Heap, funds: Funds, taker: Pubkey, target: Target, side: Side, limit: nat, quantity: nat, bps: nat): Option<Quote> {
    if target.maker !in h.orders || target.level !in h.levels then None
    else
      var maker, level := h.orders[target.maker], h.levels[target.level];
      if maker.owner == taker || maker.list.side == side || level.list != maker.list || level.price != maker.price
         || level.total < maker.remaining || !OnGrid(h.root, maker.price) || !PricesCross(side, limit, maker.price)
         || maker.locked != (if side.Ask? then maker.price * maker.remaining else maker.remaining)
         || Cash(taker) !in funds || Claim(taker, maker.list.outcome) !in funds then None
      else
        var fill := Min(quantity, maker.remaining);
        var notional := maker.price * fill;
        var fee := CeilFee(notional, bps);
        if notional > U64_MAX || !PreviewFunds(funds, taker, maker.list.outcome, side, notional, fill, fee) then None
        else Some(Quote(fill, notional, fee, if side.Bid? then notional + fee else notional - fee))
  }

  function FillTrade(taker: Pubkey, maker: Pubkey, outcome: Outcome, side: Side, price: nat, base: nat, bps: nat): Trade {
    Trade(taker, maker, outcome, side, base, price * base, if side.Ask? then price * base else base, 0, CeilFee(price * base, bps))
  }

  // -------------------------------------------------------------- the specification

  datatype SpecStep = SpecStep(maker: Maker, requested: nat, base: nat)

  datatype Outcomes = Outcomes(steps: seq<SpecStep>, funds: Funds, fees: nat)

  /** The walk with its ledger: None when a self-owned maker is met or a fill cannot be funded. */
  function PlanSpec(taker: Pubkey, outcome: Outcome, side: Side, limit: nat, makers: seq<Maker>, quantity: nat, cap: nat, bps: nat,
                    funds: Funds, fees: nat): Option<Outcomes>
    decreases cap
  {
    if !CanTake(side, limit, makers, quantity, cap) then Some(Outcomes([], funds, fees))
    else
      var base := TakeFrom(makers, quantity);
      var trade := FillTrade(taker, makers[0].owner, outcome, side, makers[0].price, base, bps);
      var settled := SettleFunds(funds, trade);
      if makers[0].owner == taker || settled.None? || fees + trade.fee > U64_MAX then None
      else
        var rest := PlanSpec(taker, outcome, side, limit, Advance(makers, base), quantity - base, cap - 1, bps, settled.value, fees + trade.fee);
        if rest.None? then None
        else Some(rest.value.(steps := [SpecStep(makers[0], quantity, base)] + rest.value.steps))
  }

  function StepFills(steps: seq<SpecStep>): seq<Taken> {
    if steps == [] then [] else [Taken(steps[0].maker, steps[0].base)] + StepFills(steps[1..])
  }

  /** A returned plan takes exactly the fills of the walk. */
  lemma {:induction false} PlanTakesTheWalk(taker: Pubkey, outcome: Outcome, side: Side, limit: nat, makers: seq<Maker>, quantity: nat, cap: nat,
                                            bps: nat, funds: Funds, fees: nat)
    requires PlanSpec(taker, outcome, side, limit, makers, quantity, cap, bps, funds, fees).Some?
    ensures StepFills(PlanSpec(taker, outcome, side, limit, makers, quantity, cap, bps, funds, fees).value.steps)
         == Fills(side, limit, makers, quantity, cap)
    decreases cap
  {
    if CanTake(side, limit, makers, quantity, cap) {
      var base := TakeFrom(makers, quantity);
      var trade := FillTrade(taker, makers[0].owner, outcome, side, makers[0].price, base, bps);
      var rest := PlanSpec(taker, outcome, side, limit, Advance(makers, base), quantity - base, cap - 1, bps, SettleFunds(funds, trade).value, fees + trade.fee);
      PlanTakesTheWalk(taker, outcome, side, limit, Advance(makers, base), quantity - base, cap - 1, bps, SettleFunds(funds, trade).value, fees + trade.fee);
      assert ([SpecStep(makers[0], quantity, base)] + rest.value.steps)[1..] == rest.value.steps;
    }
  }

  ghost predicate MakersBelow(makers: seq<Maker>, n: nat) {
    forall i :: 0 <= i < |makers| ==> makers[i].owner < n
  }

  /** Over a whole plan cash plus fees is constant, and so is every outcome's contract total. */
  lemma {:induction false} PlanConserves(taker: Pubkey, outcome: Outcome, side: Side, limit: nat, makers: seq<Maker>, quantity: nat, cap: nat,
                                         bps: nat, funds: Funds, fees: nat, n: nat)
    requires PlanSpec(taker, outcome, side, limit, makers, quantity, cap, bps, funds, fees).Some?
    requires taker < n && MakersBelow(makers, n)
    ensures var r := PlanSpec(taker, outcome, side, limit, makers, quantity, cap, bps, funds, fees).value;
      && TotalWorth(r.funds, None, n) + r.fees == TotalWorth(funds, None, n) + fees
      && forall o :: TotalWorth(r.funds, Some(o), n) == TotalWorth(funds, Some(o), n)
    decreases cap
  {
    if CanTake(side, limit, makers, quantity, cap) {
      var base := TakeFrom(makers, quantity);
      var trade := FillTrade(taker, makers[0].owner, outcome, side, makers[0].price, base, bps);
      hide SettleFunds, PricesCross;
      FillConservesTotals(funds, trade, n);
      PlanConserves(taker, outcome, side, limit, Advance(makers, base), quantity - base, cap - 1, bps, SettleFunds(funds, trade).value, fees + trade.fee, n);
    }
  }

  // ----------------------------------------------------------------- one simulated fill

  /** Against a consistent book, one maker's preview and the backing check fail exactly when the settlement would. */
  lemma QuoteExact(h: Heap, v: View, funds: Funds, elsewhere: map<Purse, nat>, l: ListId, taker: Pubkey, target: Target, side: Side,
                   limit: nat, quantity: nat, bps: nat)
    requires Consistent(h, v, funds, elsewhere) && l in v.prices && l.side == Opposite(side) && h.root.decimals == 0
    requires HeadTarget(h, v, l, quantity, target) && bps <= MAX_TAKER_FEE_BPS && quantity > 0
    requires PricesCross(side, limit, v.prices[l][0])
    ensures var maker := h.orders[target.maker];
      var base := Min(quantity, maker.remaining);
      var trade := FillTrade(taker, maker.owner, l.outcome, side, maker.price, base, bps);
      var quote := ValidateMatch(h, funds, taker, target, side, limit, quantity, bps);
      && maker.list == l && 0 < base <= maker.remaining
      && maker.locked == (if side.Ask? then maker.price * maker.remaining else maker.remaining)
      && PurseFor(maker.owner, l) in funds && maker.locked <= funds[PurseFor(maker.owner, l)].locked
      && (quote.Some? ==> quote == Some(Quote(base, trade.quote, trade.fee, if side.Bid? then trade.quote + trade.fee else trade.quote - trade.fee))
                          && trade.fee <= trade.quote)
      && (maker.owner != taker && SettleFunds(funds, trade).Some? <==>
            quote.Some? && FundsCover(funds, maker.owner, l.outcome, side, base, trade.quote))
  {
    hide Consistent, HeadTarget, OnGrid, CeilFee, SettleFunds;
    HeadIsExact(h, v, funds, elsewhere, l, quantity, target);
    var maker := h.orders[target.maker];
    var base := Min(quantity, maker.remaining);
    MulMonotone(base, maker.remaining, maker.price);
    assert maker.price * base <= maker.price * maker.remaining;
    if maker.price * base <= U64_MAX {
      ClientFeeIsChainFee(maker.price * base, bps);
    }
    if maker.owner != taker {
      PreviewIsSettlement(funds, taker, maker.owner, l.outcome, side, maker.price * base, base, CeilFee(maker.price * base, bps));
    }
  }

  predicate PreviewFunds(funds: Funds, taker: Pubkey, outcome: Outcome, side: Side, notional: nat, base: nat, fee: nat) {
    && Cash(taker) in funds && Claim(taker, outcome) in funds
    && var cash, contracts := funds[Cash(taker)], funds[Claim(taker, outcome)];
    if side.Bid? then notional + fee <= U64_MAX && notional + fee <= cash.free && contracts.free + base <= U64_MAX
    else fee <= notional && base <= contracts.free && cash.free + (notional - fee) <= U64_MAX
  }

  lemma PreviewIsSettlement(funds: Funds, taker: Pubkey, maker: Pubkey, outcome: Outcome, side: Side, notional: nat, base: nat, fee: nat)
    requires taker != maker
    requires var p := PurseFor(maker, ListId(outcome, Opposite(side)));
      p in funds && (if side.Ask? then notional else base) <= funds[p].locked
    ensures SettleFunds(funds, Trade(taker, maker, outcome, side, base, notional, if side.Ask? then notional else base, 0, fee)).Some?
      <==> PreviewFunds(funds, taker, outcome, side, notional, base, fee) && FundsCover(funds, maker, outcome, side, base, notional)
  {
  }

  /** The receiving buckets have room; the paying ones are covered by the lock. */
  predicate FundsCover(funds: Funds, maker: Pubkey, outcome: Outcome, side: Side, base: nat, notional: nat) {
    && Cash(maker) in funds && Claim(maker, outcome) in funds
    && if side.Bid? then funds[Cash(maker)].free + notional <= U64_MAX else funds[Claim(maker, outcome)].free + base <= U64_MAX
  }

  lemma HeadIsExact(h: Heap, v: View, funds: Funds, elsewhere: map<Purse, nat>, l: ListId, quantity: nat, target: Target)
    requires Consistent(h, v, funds, elsewhere) && l in v.prices && h.root.decimals == 0
    requires HeadTarget(h, v, l, quantity, target)
    ensures target.maker in h.orders && target.level in h.levels
    ensures var maker, level := h.orders[target.maker], h.levels[target.level];
      && maker.list == l && level.list == l && level.price == maker.price == v.prices[l][0]
      && 0 < maker.remaining <= level.total && OnGrid(h.root, maker.price)
      && maker.locked == (if l.side.Bid? then maker.price * maker.remaining else maker.remaining)
      && PurseFor(maker.owner, l) in funds && maker.locked <= funds[PurseFor(maker.owner, l)].locked
      && target.maker.OrderKey? && target.maker.book == h.root.key && maker.status.Open? && maker.priceLevel == target.level
      && maker.previous.None? && Stands(v, target.level, target.maker.id)
  {
    hide Linked, NoStray, Backing;
    SoundOrderIsValid(h, v, target.level, 0);
    OpenOrderFacts(h, v, target.maker);
    OpenOrderIsBacked(h, funds, elsewhere, target.maker);
    TotalExceeds(h, v, target.level, 0);
    LevelChecks(h, v, target.level);
    HeadOnGrid(h, v, l, target.level);
  }

  lemma HeadOnGrid(h: Heap, v: View, l: ListId, lk: Key)
    requires WellFormed(h, v) && lk in v.queue && v.queue[lk] != []
    ensures lk.LevelKey? && OnGrid(h.root, lk.price) && lk.list in v.prices && lk.price in v.prices[lk.list]
    ensures h.root.decimals == 0 ==>
      var k := OrderKey(h.root.key, v.queue[lk][0]);
      k in h.orders && h.orders[k].locked == (if lk.list.side.Bid? then lk.price * h.orders[k].remaining else h.orders[k].remaining)
  {
    assert OwnLevel(h, v, lk) && Queue(h, lk, v.queue[lk]);
    assert Node(h, lk, v.queue[lk], 0);
    hide WellFormed, OnGrid;
  }

  /** The ledger half of one simulated fill; None stands for a thrown error. */
  method FillLedger(funds: Funds, taker: Pubkey, maker: Pubkey, outcome: Outcome, side: Side, quote: Quote, makerLocked: nat)
    returns (r: Option<Funds>)
    requires Cash(taker) in funds && Claim(taker, outcome) in funds && taker != maker
    requires quote.fee <= quote.notional
    requires if side.Bid? then quote.cash == quote.notional + quote.fee && quote.cash <= funds[Cash(taker)].free
                               && quote.cash <= U64_MAX && quote.fill <= makerLocked
             else quote.cash == quote.notional - quote.fee && quote.fill <= funds[Claim(taker, outcome)].free && quote.notional <= makerLocked
    ensures var trade := Trade(taker, maker, outcome, side, quote.fill, quote.notional, if side.Ask? then quote.notional else quote.fill, 0, quote.fee);
      var p := PurseFor(maker, ListId(outcome, Opposite(side)));
      && (p in funds && makerLocked <= funds[p].locked ==> r == SettleFunds(funds, trade))
      && (r.Some? ==> p in funds && makerLocked <= funds[p].locked)
  {
    if Cash(maker) !in funds || Claim(maker, outcome) !in funds { return None; }
    var p := PurseFor(maker, ListId(outcome, Opposite(side)));
    if funds[p].locked < makerLocked { return None; }
    var positions := funds;
    if side.Bid? {
      if positions[Claim(taker, outcome)].free + quote.fill > U64_MAX || positions[Cash(maker)].free + quote.notional > U64_MAX { return None; }
      positions := positions[Cash(taker) := Bucket(positions[Cash(taker)].free - quote.cash, positions[Cash(taker)].locked)];
      positions := positions[Claim(taker, outcome) := Bucket(positions[Claim(taker, outcome)].free + quote.fill, positions[Claim(taker, outcome)].locked)];
      positions := positions[Cash(maker) := Bucket(positions[Cash(maker)].free + quote.notional, positions[Cash(maker)].locked)];
      positions := positions[Claim(maker, outcome) := Bucket(positions[Claim(maker, outcome)].free, positions[Claim(maker, outcome)].locked - quote.fill)];
    } else {
      if positions[Cash(taker)].free + quote.cash > U64_MAX || positions[Claim(maker, outcome)].free + quote.fill > U64_MAX { return None; }
      positions := positions[Cash(taker) := Bucket(positions[Cash(taker)].free + quote.cash, positions[Cash(taker)].locked)];
      positions := positions[Claim(taker, outcome) := Bucket(positions[Claim(taker, outcome)].free - quote.fill, positions[Claim(taker, outcome)].locked)];
      positions := positions[Cash(maker) := Bucket(positions[Cash(maker)].free, positions[Cash(maker)].locked - quote.notional)];
      positions := positions[Claim(maker, outcome) := Bucket(positions[Claim(maker, outcome)].free + quote.fill, positions[Claim(maker, outcome)].locked)];
    }
    ghost var trade := Trade(taker, maker, outcome, side, quote.fill, quote.notional, if side.Ask? then quote.notional else quote.fill, 0, quote.fee);
    assert Some(positions) == SettleFunds(funds, trade) by {
      assert SettleFunds(funds, trade).Some?;
      assert positions == SettleFunds(funds, trade).value;
    }
    r := Some(positions);
  }

  ghost predicate PartialReady(h: Heap, t: Target, fill: nat, debit: nat) {
    && Fillable(h, t.maker, fill, debit) && h.orders[t.maker].priceLevel == t.level && t.next.None?
  }

  ghost predicate FullReady(h: Heap, t: Target) {
    && Detachable(h, t.maker)
    && var o := h.orders[t.maker];
    && o.priceLevel == t.level && o.previous.None?
    && var l := h.levels[t.level];
    && l.better.None? && l.list == o.list
    && t.next == ClientHints(h, t.maker).next && t.worse == ClientHints(h, t.maker).worse
    && (if l.count == 1 then o.next.None? else o.next.Some? && o.next.value != t.maker)
    && t.worse != Some(t.level)
  }

  /** The account half of one simulated fill: the maker, its level or successor, the head price and the counters. */
  method FillAccounts(h: Heap, target: Target, fill: nat, debit: nat) returns (r: Option<Heap>)
    requires target.maker in h.orders && target.level in h.levels
    requires fill <= h.orders[target.maker].remaining && debit <= h.orders[target.maker].locked
    requires Legal(h.root.kind, h.orders[target.maker].list)
    ensures PartialReady(h, target, fill, debit) ==> r == Some(PartlyFilled(h, target.maker, fill, debit))
    ensures FullReady(h, target) && fill == h.orders[target.maker].remaining && debit == h.orders[target.maker].locked ==>
      r == Some(Retired(h, target.maker, FilledOrder(h.orders[target.maker])))
  {
    var orders, levels, root := h.orders, h.levels, h.root;
    var maker, level := h.orders[target.maker], h.levels[target.level];
    var full := fill == maker.remaining;
    if level.total < fill || (full && (level.count < 1 || root.open < 1)) { return None; }
    var count := if full then level.count - 1 else level.count;
    if full { root := root.(open := root.open - 1); }
    orders := orders[target.maker := maker.(remaining := maker.remaining - fill, locked := maker.locked - debit,
                                             status := if full then Status.Filled else maker.status,
                                             next := if full then None else maker.next)];
    if full && count == 0 {
      levels := levels - {target.level};
      root := root.(best := root.best[Slot(root.kind, maker.list).value := level.worse]);
      if target.worse.Some? {
        if target.worse.value !in levels { return None; }
        levels := levels[target.worse.value := levels[target.worse.value].(better := None)];
      }
    } else {
      levels := levels[target.level := level.(count := count, total := level.total - fill,
                                               first := if full then maker.next else level.first)];
      if target.next.Some? {
        if target.next.value !in orders { return None; }
        orders := orders[target.next.value := orders[target.next.value].(previous := None)];
      }
    }
    if FullReady(h, target) && full && debit == maker.locked {
      FilledAccountsAgree(h, target, Heap(root, orders, levels));
    }
    r := Some(Heap(root, orders, levels));
  }

  ghost predicate FilledAccounts(h: Heap, t: Target, h': Heap)
    requires FullReady(h, t)
  {
    var o := h.orders[t.maker];
    var l := h.levels[t.level];
    var orders := h.orders[t.maker := FilledOrder(o)];
    && h'.orders == (if l.count > 1 then orders[o.next.value := orders[o.next.value].(previous := None)] else orders)
    && (if l.count > 1 then
          && h'.root == h.root.(open := h.root.open - 1)
          && h'.levels == h.levels[t.level := l.(count := l.count - 1, total := l.total - o.remaining, first := o.next)]
        else
          && h'.root == h.root.(open := h.root.open - 1, best := h.root.best[Slot(h.root.kind, o.list).value := l.worse])
          && var levels := h.levels - {t.level};
          h'.levels == if t.worse.Some? then levels[t.worse.value := h.levels[t.worse.value].(better := None)] else levels)
  }

  lemma FilledAccountsAgree(h: Heap, t: Target, h': Heap)
    requires FullReady(h, t) && FilledAccounts(h, t, h')
    ensures h' == Retired(h, t.maker, FilledOrder(h.orders[t.maker]))
  {
    var o := h.orders[t.maker];
    assert h'.orders == OrdersDetached(h.orders, o)[t.maker := FilledOrder(o)];
  }

  ghost function FilledHeap(h: Heap, t: Target, fill: nat, debit: nat): Heap {
    if t.maker in h.orders && fill == h.orders[t.maker].remaining then
      if FullReady(h, t) then Retired(h, t.maker, FilledOrder(h.orders[t.maker])) else h
    else if PartialReady(h, t, fill, debit) then PartlyFilled(h, t.maker, fill, debit)
    else h
  }

  ghost function FilledView(h: Heap, v: View, t: Target, fill: nat): View {
    if t.maker in h.orders && fill == h.orders[t.maker].remaining && t.maker.OrderKey? && Stands(v, t.level, t.maker.id)
    then Deleted(v, t.level, t.maker.id) else v
  }

  lemma FullTargetReady(h: Heap, v: View, funds: Funds, elsewhere: map<Purse, nat>, l: ListId, quantity: nat, t: Target)
    requires Consistent(h, v, funds, elsewhere) && l in v.prices && h.root.decimals == 0
    requires HeadTarget(h, v, l, quantity, t) && quantity >= h.orders[t.maker].remaining
    ensures FullReady(h, t)
  {
    hide Consistent, WellFormed, Linked, NoStray, Backing, Uncrossed, HeadTarget;
    ConsistentIsWellFormed(h, v, funds, elsewhere);
    HeadIsExact(h, v, funds, elsewhere, l, quantity, t);
    FullTargetLinks(h, v, l, quantity, t);
    RemovalIsDeletion(h, v, t.maker);
  }

  lemma FullTargetLinks(h: Heap, v: View, l: ListId, quantity: nat, t: Target)
    requires WellFormed(h, v) && l in v.prices
    requires HeadTarget(h, v, l, quantity, t) && quantity >= h.orders[t.maker].remaining
    ensures var o, lvl := h.orders[t.maker], h.levels[t.level];
      && lvl.better.None?
      && t.next == ClientHints(h, t.maker).next && t.worse == ClientHints(h, t.maker).worse
      && (if lvl.count == 1 then o.next.None? else o.next.Some? && o.next.value != t.maker)
      && t.worse != Some(t.level)
  {
    hide Linked, NoStray;
    SoundOrderIsValid(h, v, t.level, 0);
    SoundLevelIsValid(h, v, l, 0);
    QueueEnds(h, v, t.level);
    RankedPrices(h, v, l);
  }

  /** One simulated fill keeps the overlay a consistent book and advances the flat sequence by exactly that fill. */
  lemma StepAdvances(h: Heap, v: View, funds: Funds, elsewhere: map<Purse, nat>, l: ListId, taker: Pubkey, t: Target, side: Side,
                     quantity: nat, bps: nat)
    requires Consistent(h, v, funds, elsewhere) && l in v.prices && l.side == Opposite(side) && h.root.decimals == 0
    requires HeadTarget(h, v, l, quantity, t) && quantity > 0
    requires var maker := h.orders[t.maker];
      SettleFunds(funds, FillTrade(taker, maker.owner, l.outcome, side, maker.price, Min(quantity, maker.remaining), bps)).Some?
    ensures var maker := h.orders[t.maker];
      var base := Min(quantity, maker.remaining);
      var trade := FillTrade(taker, maker.owner, l.outcome, side, maker.price, base, bps);
      var h' := FilledHeap(h, t, base, trade.debit);
      var v' := FilledView(h, v, t, base);
      && (if base == maker.remaining then FullReady(h, t) && trade.debit == maker.locked else PartialReady(h, t, base, trade.debit))
      && Consistent(h', v', SettleFunds(funds, trade).value, elsewhere)
      && l in v'.prices && h'.root.kind == h.root.kind && h'.root.decimals == h.root.decimals
      && Flat(h, v, l) != [] && Flat(h, v, l)[0] == MakerOf(h, t.maker) && base <= maker.remaining
      && Flat(h', v', l) == Advance(Flat(h, v, l), base)
  {
    hide Consistent, WellFormed, HeadTarget, SettleFunds, CeilFee, OnGrid, Detachable, FullReady;
    ConsistentIsWellFormed(h, v, funds, elsewhere);
    HeadIsExact(h, v, funds, elsewhere, l, quantity, t);
    TargetIsHead(h, v, l, quantity, t);
    var maker := h.orders[t.maker];
    var base := Min(quantity, maker.remaining);
    var trade := FillTrade(taker, maker.owner, l.outcome, side, maker.price, base, bps);
    var lk, rk := HeadFacts(h, v, l);
    if base == maker.remaining {
      FullTargetReady(h, v, funds, elsewhere, l, quantity, t);
      FullFillKeepsConsistent(h, v, funds, elsewhere, t.maker, trade);
      FlatAfterRetire(h, v, l, t.maker, t.level, FilledOrder(maker));
      RetiredRoot(h, t.maker, FilledOrder(maker));
    } else {
      PartialBacked(h.root, maker, base, trade.debit);
      PartialFillKeepsConsistent(h, v, funds, elsewhere, t.maker, trade);
      FlatAfterPartial(h, v, l, t.maker, t.level, base, trade.debit);
    }
  }

  lemma TargetIsHead(h: Heap, v: View, l: ListId, quantity: nat, t: Target)
    requires l in v.prices && HeadTarget(h, v, l, quantity, t)
    ensures v.prices[l] != [] && t.level == LevelKey(h.root.key, l, v.prices[l][0])
    ensures t.level in v.queue && v.queue[t.level] != [] && t.maker == OrderKey(h.root.key, v.queue[t.level][0])
    ensures t.maker in h.orders && (quantity < h.orders[t.maker].remaining ==> t.next.None?)
  {
  }

  lemma RetiredRoot(h: Heap, rk: Key, o': Order)
    requires Detachable(h, rk)
    ensures Retired(h, rk, o').root.kind == h.root.kind && Retired(h, rk, o').root.decimals == h.root.decimals
  {
  }

  lemma PartialBacked(root: Root, o: Order, fill: nat, debit: nat)
    requires root.decimals == 0 && fill < o.remaining
    requires o.locked == (if o.list.side.Bid? then o.price * o.remaining else o.remaining)
    requires debit == (if o.list.side.Bid? then o.price * fill else fill)
    ensures debit <= o.locked && Backed(o.list.side, root.decimals, o.price, o.remaining - fill, o.locked - debit)
  {
    if o.list.side.Bid? {
      assert o.price * o.remaining == o.price * fill + o.price * (o.remaining - fill);
      NotionalWhole(o.price, o.remaining - fill);
    }
  }

  // --------------------------------------------------------------------- the planner

  predicate ValidRequest(root: Root, outcome: Outcome, limit: int, quantity: int, bps: int, fees: int, open: bool) {
    && root.kind.PredictionKind? && (outcome.Yes? || outcome.No?)
    && open
    && 0 < quantity <= U64_MAX
    && 0 < limit <= U64_MAX && limit < root.payout && root.tick > 0 && limit % root.tick == 0
    && 0 <= bps <= MAX_TAKER_FEE_BPS
    && 0 <= fees <= U64_MAX
  }

  /** On a prediction book the client accepts exactly the program's terms, except that the value at the limit may not fit u64. */
  lemma RequestTermsExactly(root: Root, outcome: Outcome, side: Side, limit: int, quantity: int, bps: int, fees: int, open: bool)
    requires root.kind.PredictionKind? && root.decimals == 0 && root.lot == 1
    ensures ValidRequest(root, outcome, limit, quantity, bps, fees, open) && limit * quantity <= U64_MAX <==>
      && open && 0 <= bps <= 1000 && 0 <= fees <= U64_MAX
      && 0 <= limit <= U64_MAX && 0 <= quantity <= U64_MAX && OrderTerms(root, ListId(outcome, side), limit, quantity).Some?
  {
    if limit > 0 && quantity > 0 {
      NotionalWhole(limit, quantity);
      MulPositive(limit, quantity);
    }
    hide Notional;
  }

  function SumNotional(steps: seq<Step>): nat {
    if steps == [] then 0 else SumNotional(steps[..|steps| - 1]) + steps[|steps| - 1].notional
  }

  function SumFee(steps: seq<Step>): nat {
    if steps == [] then 0 else SumFee(steps[..|steps| - 1]) + steps[|steps| - 1].fee
  }

  /** A recorded step is the specified one: same maker account, quantities and routing, notional at the maker's price. */
  ghost predicate SameStep(a: Step, b: SpecStep, bps: nat) {
    && a.target.maker == b.maker.key && a.requested == b.requested && a.fill == b.base
    && a.notional == b.maker.price * b.base && a.fee == CeilFee(a.notional, bps)
    && Route(a.target.next, a.target.worse, a.target.recipient) == RouteOf(b.maker, b.base)
  }

  ghost predicate SameSteps(a: seq<Step>, b: seq<SpecStep>, bps: nat) {
    |a| == |b| && forall i :: 0 <= i < |a| ==> SameStep(a[i], b[i], bps)
  }

  /** What is left to plan, prefixed with the steps already taken. */
  ghost function Continued(done: seq<SpecStep>, rest: Option<Outcomes>): Option<Outcomes> {
    if rest.None? then None else Some(rest.value.(steps := done + rest.value.steps))
  }

  datatype Request = Request(taker: Pubkey, outcome: Outcome, side: Side, limit: nat, bps: nat)

  ghost predicate PredictionBook(h: Heap, v: View, funds: Funds, elsewhere: map<Purse, nat>, ask: Request) {
    && Consistent(h, v, funds, elsewhere)
    && h.root.decimals == 0
    && ListId(ask.outcome, Opposite(ask.side)) in v.prices
  }

  /** The state between two iterations leads to the same plan, leftover and remaining side as the initial one. */
  ghost predicate SameFuture(ask: Request, makers: seq<Maker>, quantity: nat, cap: nat, funds: Funds, fees: nat, done: seq<SpecStep>,
                             makers': seq<Maker>, quantity': nat, cap': nat, funds': Funds, fees': nat)
  {
    && PlanSpec(ask.taker, ask.outcome, ask.side, ask.limit, makers, quantity, cap, ask.bps, funds, fees)
       == Continued(done, PlanSpec(ask.taker, ask.outcome, ask.side, ask.limit, makers', quantity', cap', ask.bps, funds', fees'))
    && Leftover(ask.side, ask.limit, makers, quantity, cap) == Leftover(ask.side, ask.limit, makers', quantity', cap')
    && Rest(ask.side, ask.limit, makers, quantity, cap) == Rest(ask.side, ask.limit, makers', quantity', cap')
  }

  lemma FutureStep(ask: Request, makers: seq<Maker>, quantity: nat, cap: nat, funds: Funds, fees: nat, done: seq<SpecStep>,
                   makers': seq<Maker>, quantity': nat, cap': nat, funds': Funds, fees': nat)
    requires SameFuture(ask, makers, quantity, cap, funds, fees, done, makers', quantity', cap', funds', fees')
    requires CanTake(ask.side, ask.limit, makers', quantity', cap')
    ensures var base := TakeFrom(makers', quantity');
      var trade := FillTrade(ask.taker, makers'[0].owner, ask.outcome, ask.side, makers'[0].price, base, ask.bps);
      var settled := SettleFunds(funds', trade);
      if makers'[0].owner == ask.taker || settled.None? || fees' + trade.fee > U64_MAX then
        PlanSpec(ask.taker, ask.outcome, ask.side, ask.limit, makers, quantity, cap, ask.bps, funds, fees).None?
      else
        SameFuture(ask, makers, quantity, cap, funds, fees, done + [SpecStep(makers'[0], quantity', base)],
                   Advance(makers', base), quantity' - base, cap' - 1, settled.value, fees' + trade.fee)
  {
    hide SettleFunds, PricesCross, CeilFee;
    var base := TakeFrom(makers', quantity');
    var trade := FillTrade(ask.taker, makers'[0].owner, ask.outcome, ask.side, makers'[0].price, base, ask.bps);
    var settled := SettleFunds(funds', trade);
    if !(makers'[0].owner == ask.taker || settled.None? || fees' + trade.fee > U64_MAX) {
      var rest := PlanSpec(ask.taker, ask.outcome, ask.side, ask.limit, Advance(makers', base), quantity' - base, cap' - 1, ask.bps, settled.value, fees' + trade.fee);
      if rest.Some? {
        assert done + ([SpecStep(makers'[0], quantity', base)] + rest.value.steps) == (done + [SpecStep(makers'[0], quantity', base)]) + rest.value.steps;
      }
    }
  }

  /** The returned plan is the specified one, and its final overlay is a consistent book with those fills removed. */
  ghost predicate PlanAgrees(ask: Request, h: Heap, v: View, funds: Funds, elsewhere: map<Purse, nat>, quantity: nat, cap: nat, fees: nat,
                             r: Result, after: View)
    requires ListId(ask.outcome, Opposite(ask.side)) in v.prices
  {
    var l := ListId(ask.outcome, Opposite(ask.side));
    var makers := Flat(h, v, l);
    var spec := PlanSpec(ask.taker, ask.outcome, ask.side, ask.limit, makers, quantity, cap, ask.bps, funds, fees);
    && spec.Some?
    && SameSteps(r.steps, spec.value.steps, ask.bps)
    && r.funds == spec.value.funds && r.fees == spec.value.fees
    && r.remaining == Leftover(ask.side, ask.limit, makers, quantity, cap)
    && PredictionBook(r.final, after, r.funds, elsewhere, ask)
    && Flat(r.final, after, l) == Rest(ask.side, ask.limit, makers, quantity, cap)
    && r.stop == StopReason(ask.side, ask.limit, Flat(r.final, after, l), r.remaining)
  }

  /** On a consistent prediction book: a plan is returned exactly when the specified walk succeeds, and is that walk. */
  ghost predicate PlanIsWalk(ask: Request, h: Heap, v: View, funds: Funds, elsewhere: map<Purse, nat>, quantity: nat, cap: nat, fees: nat,
                             r: Option<Result>, after: View)
  {
    PredictionBook(h, v, funds, elsewhere, ask) ==>
      if r.Some? then PlanAgrees(ask, h, v, funds, elsewhere, quantity, cap, fees, r.value, after)
      else PlanSpec(ask.taker, ask.outcome, ask.side, ask.limit, Flat(h, v, ListId(ask.outcome, Opposite(ask.side))), quantity, cap, ask.bps,
                    funds, fees).None?
  }

  ghost predicate SumsRight(side: Side, steps: seq<Step>, notional: nat, fee: nat, cash: nat) {
    && notional == SumNotional(steps) && fee == SumFee(steps) && fee <= notional
    && cash == if side.Bid? then notional + fee else notional - fee
  }

  /** Between two iterations, on a consistent book: the overlay is consistent and leads to the same result. */
  ghost predicate OnTrack(ask: Request, h: Heap, v: View, funds: Funds, elsewhere: map<Purse, nat>, quantity: nat, cap: nat, fees: nat,
                          overlay: Heap, view: View, ledger: Funds, accrued: nat, remaining: nat, steps: seq<Step>, done: seq<SpecStep>)
    requires ListId(ask.outcome, Opposite(ask.side)) in v.prices
  {
    var l := ListId(ask.outcome, Opposite(ask.side));
    && PredictionBook(overlay, view, ledger, elsewhere, ask)
    && |steps| <= cap
    && SameSteps(steps, done, ask.bps)
    && SameFuture(ask, Flat(h, v, l), quantity, cap, funds, fees, done, Flat(overlay, view, l), remaining, cap - |steps|, ledger, accrued)
  }

  /** When the walk stops, the accumulated steps are the whole plan. */
  lemma StopAgrees(ask: Request, h: Heap, v: View, funds: Funds, elsewhere: map<Purse, nat>, quantity: nat, cap: nat, fees: nat,
                   overlay: Heap, view: View, ledger: Funds, accrued: nat, remaining: nat, steps: seq<Step>, done: seq<SpecStep>, r: Result)
    requires ListId(ask.outcome, Opposite(ask.side)) in v.prices
    requires OnTrack(ask, h, v, funds, elsewhere, quantity, cap, fees, overlay, view, ledger, accrued, remaining, steps, done)
    requires !CanTake(ask.side, ask.limit, Flat(overlay, view, ListId(ask.outcome, Opposite(ask.side))), remaining, cap - |steps|)
    requires r.steps == steps && r.remaining == remaining && r.final == overlay && r.funds == ledger && r.fees == accrued
    requires r.stop == StopReason(ask.side, ask.limit, Flat(overlay, view, ListId(ask.outcome, Opposite(ask.side))), remaining)
    requires ask.bps <= MAX_TAKER_FEE_BPS
    ensures PlanAgrees(ask, h, v, funds, elsewhere, quantity, cap, fees, r, view)
    ensures PredictionBook(h, v, funds, elsewhere, ask) ==> PlanPays(ask, h, funds, r)
  {
    hide PredictionBook, Flat, StopReason, PlanPays, WellFormed;
    assert done + [] == done;
    if PredictionBook(h, v, funds, elsewhere, ask) {
      BookWellFormed(h, v, funds, elsewhere, ask);
      AgreedPays(ask, h, v, funds, elsewhere, quantity, cap, fees, r, view);
    }
  }

  lemma BookWellFormed(h: Heap, v: View, funds: Funds, elsewhere: map<Purse, nat>, ask: Request)
    requires PredictionBook(h, v, funds, elsewhere, ask)
    ensures WellFormed(h, v)
  {
  }

  // ---------------------------------------------------------- what a plan pays, in its own numbers

  /** Whose order a step takes. */
  function OwnerOf(h: Heap, s: Step): Pubkey {
    if s.target.maker in h.orders then h.orders[s.target.maker].owner else 0
  }

  /** What owner m is paid, and how many contracts the steps take from or give to m. */
  function PaidTo(h: Heap, steps: seq<Step>, m: Pubkey): nat {
    if steps == [] then 0 else (if OwnerOf(h, steps[0]) == m then steps[0].notional else 0) + PaidTo(h, steps[1..], m)
  }

  function FilledFor(h: Heap, steps: seq<Step>, m: Pubkey): nat {
    if steps == [] then 0 else (if OwnerOf(h, steps[0]) == m then steps[0].fill else 0) + FilledFor(h, steps[1..], m)
  }

  function SumFill(steps: seq<Step>): nat {
    if steps == [] then 0 else steps[0].fill + SumFill(steps[1..])
  }

  /** Every step takes someone else's order, at or inside the limit, at that order's own price, with the ceiling fee. */
  ghost predicate FairStep(ask: Request, h: Heap, s: Step) {
    && s.target.maker in h.orders
    && var o := h.orders[s.target.maker];
    && o.owner != ask.taker
    && (if ask.side.Bid? then o.price <= ask.limit else ask.limit <= o.price)
    && s.notional == o.price * s.fill && s.fee == CeilFee(s.notional, ask.bps)
  }

  ghost predicate FairSteps(ask: Request, h: Heap, steps: seq<Step>) {
    forall s <- steps :: FairStep(ask, h, s)
  }

  /** What the steps pay the taker, every maker, and nobody else. */
  ghost predicate StepsPaid(ask: Request, h: Heap, before: Funds, after: Funds, steps: seq<Step>) {
    && after.Keys == before.Keys
    && (steps != [] ==>
          if ask.side.Bid? then
            && Moves(before, after, Cash(ask.taker), 0 - (SumNotional(steps) + SumFee(steps)), 0)
            && Moves(before, after, Claim(ask.taker, ask.outcome), SumFill(steps), 0)
          else
            && Moves(before, after, Cash(ask.taker), SumNotional(steps) - SumFee(steps), 0)
            && Moves(before, after, Claim(ask.taker, ask.outcome), 0 - SumFill(steps), 0))
    && (forall p <- before ::
          match p
          case Cash(m) =>
            m != ask.taker ==> Moves(before, after, p, if ask.side.Bid? then PaidTo(h, steps, m) else 0, if ask.side.Bid? then 0 else 0 - PaidTo(h, steps, m))
          case Claim(m, outcome) =>
            && (outcome != ask.outcome ==> after[p] == before[p])
            && (outcome == ask.outcome && m != ask.taker ==>
                  Moves(before, after, p, if ask.side.Bid? then 0 else FilledFor(h, steps, m), if ask.side.Bid? then 0 - FilledFor(h, steps, m) else 0)))
    && (steps == [] ==> after == before)
  }

  /** The returned plan is fair step by step, and its final ledger is exactly what the steps pay. */
  ghost predicate PlanPays(ask: Request, h: Heap, before: Funds, r: Result) {
    FairSteps(ask, h, r.steps) && StepsPaid(ask, h, before, r.funds, r.steps)
  }

  lemma {:induction false} SumsFromHead(steps: seq<Step>)
    requires steps != []
    ensures SumNotional(steps) == steps[0].notional + SumNotional(steps[1..])
    ensures SumFee(steps) == steps[0].fee + SumFee(steps[1..])
  {
    if |steps| > 1 {
      var init := steps[..|steps| - 1];
      SumsFromHead(init);
      assert init[1..] == steps[1..][..|steps| - 2];
    } else {
      assert steps[..0] == [] && steps[1..] == [];
    }
  }

  /** Paying the first step and then the others is paying all of them. */
  lemma StepPaid(ask: Request, h: Heap, before: Funds, middle: Funds, after: Funds, steps: seq<Step>)
    requires steps != [] && FairStep(ask, h, steps[0]) && ask.bps <= MAX_TAKER_FEE_BPS
    requires var s := steps[0];
      if ask.side.Bid? then BuyPaid(before, middle, ask.taker, OwnerOf(h, s), ask.outcome, s.fill, s.notional, s.fee)
      else SellPaid(before, middle, ask.taker, OwnerOf(h, s), ask.outcome, s.fill, s.notional, s.fee, s.notional)
    requires StepsPaid(ask, h, middle, after, steps[1..])
    ensures StepsPaid(ask, h, before, after, steps)
  {
    SumsFromHead(steps);
    hide SumNotional, SumFee, CeilFee;
    if steps[1..] == [] { NoSums(h, ask.taker); }
  }

  lemma NoSums(h: Heap, m: Pubkey)
    ensures SumNotional([]) == 0 && SumFee([]) == 0 && SumFill([]) == 0
  {
  }

  lemma {:induction false} SpecPays(ask: Request, h: Heap, makers: seq<Maker>, quantity: nat, cap: nat, funds: Funds, fees: nat, steps: seq<Step>)
    requires PlanSpec(ask.taker, ask.outcome, ask.side, ask.limit, makers, quantity, cap, ask.bps, funds, fees).Some?
    requires SameSteps(steps, PlanSpec(ask.taker, ask.outcome, ask.side, ask.limit, makers, quantity, cap, ask.bps, funds, fees).value.steps, ask.bps)
    requires Recorded(h, makers) && ask.bps <= MAX_TAKER_FEE_BPS
    ensures FairSteps(ask, h, steps)
    ensures StepsPaid(ask, h, funds, PlanSpec(ask.taker, ask.outcome, ask.side, ask.limit, makers, quantity, cap, ask.bps, funds, fees).value.funds, steps)
    decreases cap
  {
    hide SettleFunds, CeilFee, StepsPaid, RouteOf, SameStep;
    if CanTake(ask.side, ask.limit, makers, quantity, cap) {
      var base := TakeFrom(makers, quantity);
      var trade := FillTrade(ask.taker, makers[0].owner, ask.outcome, ask.side, makers[0].price, base, ask.bps);
      var rest := Advance(makers, base);
      var spec := PlanSpec(ask.taker, ask.outcome, ask.side, ask.limit, makers, quantity, cap, ask.bps, funds, fees).value;
      var tail := PlanSpec(ask.taker, ask.outcome, ask.side, ask.limit, rest, quantity - base, cap - 1, ask.bps, SettleFunds(funds, trade).value,
                           fees + trade.fee).value;
      assert spec.steps[1..] == tail.steps && makers[0] in makers;
      FirstStep(ask, h, makers[0], quantity, base, steps[0]) by { assert SameStep(steps[0], spec.steps[0], ask.bps); }
      TailSame(steps, spec.steps, ask.bps);
      assert Recorded(h, rest) by { RecordedAdvance(h, makers, base); }
      hide PlanSpec;
      SpecPays(ask, h, rest, quantity - base, cap - 1, SettleFunds(funds, trade).value, fees + trade.fee, steps[1..]);
      SettlementPays(funds, trade);
      StepPaid(ask, h, funds, SettleFunds(funds, trade).value, tail.funds, steps);
      forall s <- steps ensures FairStep(ask, h, s) {
        if s != steps[0] { assert s in steps[1..]; }
      }
    } else {
      NothingPaid(ask, h, funds);
    }
  }

  lemma NothingPaid(ask: Request, h: Heap, funds: Funds)
    ensures StepsPaid(ask, h, funds, funds, [])
  {
  }

  lemma TailSame(a: seq<Step>, b: seq<SpecStep>, bps: nat)
    requires SameSteps(a, b, bps) && b != []
    ensures a != [] && SameStep(a[0], b[0], bps) && SameSteps(a[1..], b[1..], bps)
  {
    hide SameStep;
  }

  lemma RecordedAdvance(h: Heap, makers: seq<Maker>, base: nat)
    requires Recorded(h, makers) && makers != [] && base <= makers[0].remaining
    ensures Recorded(h, Advance(makers, base))
  {
    assert makers[0] in makers && forall m <- makers[1..] :: m in makers;
  }

  lemma FirstStep(ask: Request, h: Heap, m: Maker, quantity: nat, base: nat, s: Step)
    requires SameStep(s, SpecStep(m, quantity, base), ask.bps) && m.owner != ask.taker
    requires m.key in h.orders && m.owner == h.orders[m.key].owner && m.price == h.orders[m.key].price
    requires PricesCross(ask.side, ask.limit, m.price)
    ensures FairStep(ask, h, s) && OwnerOf(h, s) == m.owner
    ensures s.fill == base && s.notional == m.price * base && s.fee == CeilFee(m.price * base, ask.bps)
  {
    hide CeilFee, RouteOf;
  }

  /** The taker's and the maker's side of one fill can be paid, received and accrued. */
  ghost predicate StepPossible(ask: Request, t: Taken, funds: Funds, fees: nat) {
    && t.maker.owner != ask.taker
    && var notional := t.maker.price * t.base;
    var fee := CeilFee(notional, ask.bps);
    && fees + fee <= U64_MAX
    && if ask.side.Bid? then BuyPossible(funds, ask.taker, t.maker.owner, ask.outcome, t.base, notional, fee)
       else SellPossible(funds, ask.taker, t.maker.owner, ask.outcome, t.base, notional, fee, notional)
  }

  /** A plan of at most k fills exists, and the fill after it is impossible. */
  ghost predicate BreaksAt(ask: Request, makers: seq<Maker>, quantity: nat, cap: nat, funds: Funds, fees: nat, k: nat) {
    && k < |Fills(ask.side, ask.limit, makers, quantity, cap)|
    && var before := PlanSpec(ask.taker, ask.outcome, ask.side, ask.limit, makers, quantity, k, ask.bps, funds, fees);
    && before.Some?
    && !StepPossible(ask, Fills(ask.side, ask.limit, makers, quantity, cap)[k], before.value.funds, before.value.fees)
  }

  /** A plan is refused exactly when one of the walk's fills is impossible after the ones before it. */
  lemma {:induction false} RefusedExactly(ask: Request, makers: seq<Maker>, quantity: nat, cap: nat, funds: Funds, fees: nat)
    ensures PlanSpec(ask.taker, ask.outcome, ask.side, ask.limit, makers, quantity, cap, ask.bps, funds, fees).None?
      <==> exists k :: BreaksAt(ask, makers, quantity, cap, funds, fees, k)
    decreases cap
  {
    hide BreaksAt, SettleFunds, CeilFee, StepPossible, PricesCross;
    if !CanTake(ask.side, ask.limit, makers, quantity, cap) {
      forall k ensures !BreaksAt(ask, makers, quantity, cap, funds, fees, k) {
        NoFillsNoBreak(ask, makers, quantity, cap, funds, fees, k);
      }
    } else {
      var base := TakeFrom(makers, quantity);
      var rest := Advance(makers, base);
      var trade := FillTrade(ask.taker, makers[0].owner, ask.outcome, ask.side, makers[0].price, base, ask.bps);
      FirstBreak(ask, makers, quantity, cap, funds, fees);
      if makers[0].owner != ask.taker && SettleFunds(funds, trade).Some? && fees + trade.fee <= U64_MAX {
        var next, left: nat, slots: nat, accrued: nat := SettleFunds(funds, trade).value, quantity - base, cap - 1, fees + trade.fee;
        RefusedExactly(ask, rest, left, slots, next, accrued);
        forall k: nat | k > 0
          ensures BreaksAt(ask, makers, quantity, cap, funds, fees, k) <==> BreaksAt(ask, rest, left, slots, next, accrued, k - 1)
        {
          LaterBreak(ask, makers, quantity, cap, funds, fees, k - 1);
        }
        if j: nat :| BreaksAt(ask, rest, left, slots, next, accrued, j) {
          assert BreaksAt(ask, makers, quantity, cap, funds, fees, j + 1);
        }
      }
    }
  }

  lemma NoFillsNoBreak(ask: Request, makers: seq<Maker>, quantity: nat, cap: nat, funds: Funds, fees: nat, k: nat)
    requires !CanTake(ask.side, ask.limit, makers, quantity, cap)
    ensures !BreaksAt(ask, makers, quantity, cap, funds, fees, k)
  {
  }

  lemma FirstBreak(ask: Request, makers: seq<Maker>, quantity: nat, cap: nat, funds: Funds, fees: nat)
    requires CanTake(ask.side, ask.limit, makers, quantity, cap)
    ensures var trade := FillTrade(ask.taker, makers[0].owner, ask.outcome, ask.side, makers[0].price, TakeFrom(makers, quantity), ask.bps);
      BreaksAt(ask, makers, quantity, cap, funds, fees, 0)
      <==> makers[0].owner == ask.taker || SettleFunds(funds, trade).None? || fees + trade.fee > U64_MAX
  {
    hide SettleFunds, CeilFee;
    var base := TakeFrom(makers, quantity);
    var trade := FillTrade(ask.taker, makers[0].owner, ask.outcome, ask.side, makers[0].price, base, ask.bps);
    WalkUnfolds(ask.side, ask.limit, makers, quantity, cap);
    SettlementPays(funds, trade);
  }

  lemma LaterBreak(ask: Request, makers: seq<Maker>, quantity: nat, cap: nat, funds: Funds, fees: nat, k: nat)
    requires CanTake(ask.side, ask.limit, makers, quantity, cap)
    requires var trade := FillTrade(ask.taker, makers[0].owner, ask.outcome, ask.side, makers[0].price, TakeFrom(makers, quantity), ask.bps);
      makers[0].owner != ask.taker && SettleFunds(funds, trade).Some? && fees + trade.fee <= U64_MAX
    ensures var base := TakeFrom(makers, quantity);
      var trade := FillTrade(ask.taker, makers[0].owner, ask.outcome, ask.side, makers[0].price, base, ask.bps);
      BreaksAt(ask, makers, quantity, cap, funds, fees, k + 1)
      <==> BreaksAt(ask, Advance(makers, base), quantity - base, cap - 1, SettleFunds(funds, trade).value, fees + trade.fee, k)
  {
    hide SettleFunds, CeilFee, StepPossible, PricesCross;
    var base := TakeFrom(makers, quantity);
    var trade := FillTrade(ask.taker, makers[0].owner, ask.outcome, ask.side, makers[0].price, base, ask.bps);
    WalkUnfolds(ask.side, ask.limit, makers, quantity, cap);
    var here := PlanSpec(ask.taker, ask.outcome, ask.side, ask.limit, makers, quantity, k + 1, ask.bps, funds, fees);
    var there := PlanSpec(ask.taker, ask.outcome, ask.side, ask.limit, Advance(makers, base), quantity - base, k, ask.bps,
                          SettleFunds(funds, trade).value, fees + trade.fee);
    assert here.Some? <==> there.Some?;
    assert here.Some? ==> here.value.funds == there.value.funds && here.value.fees == there.value.fees;
    hide PlanSpec, Fills, Advance;
  }

  lemma AgreedPays(ask: Request, h: Heap, v: View, funds: Funds, elsewhere: map<Purse, nat>, quantity: nat, cap: nat, fees: nat, r: Result, after: View)
    requires ListId(ask.outcome, Opposite(ask.side)) in v.prices && WellFormed(h, v) && ask.bps <= MAX_TAKER_FEE_BPS
    requires PlanAgrees(ask, h, v, funds, elsewhere, quantity, cap, fees, r, after)
    ensures PlanPays(ask, h, funds, r)
  {
    hide PredictionBook, Flat, StopReason, PlanSpec, SameSteps, FairSteps, StepsPaid, WellFormed, Recorded;
    FlatRecorded(h, v, ListId(ask.outcome, Opposite(ask.side)));
    SpecPays(ask, h, Flat(h, v, ListId(ask.outcome, Opposite(ask.side))), quantity, cap, funds, fees, r.steps);
  }

  lemma BestIsFlatHead(h: Heap, v: View, funds: Funds, elsewhere: map<Purse, nat>, ask: Request)
    requires PredictionBook(h, v, funds, elsewhere, ask)
    ensures var l := ListId(ask.outcome, Opposite(ask.side));
      && Legal(h.root.kind, l)
      && Best(h.root, l) == Head(v.prices[l])
      && (Flat(h, v, l) == [] <==> v.prices[l] == [])
      && (v.prices[l] != [] ==> Flat(h, v, l)[0].price == v.prices[l][0] && Flat(h, v, l)[0].remaining > 0)
  {
    hide Consistent, WellFormed, Flat;
    ConsistentIsWellFormed(h, v, funds, elsewhere);
    var l := ListId(ask.outcome, Opposite(ask.side));
    FlatEmpty(h, v, l);
    if v.prices[l] != [] {
      var lk, rk := HeadFacts(h, v, l);
      SoundOrderIsValid(h, v, lk, 0);
    }
  }

  /** The trade an iteration attempts against the overlay's head. */
  function HeadTrade(ask: Request, overlay: Heap, remaining: nat, t: Target): Trade
    requires t.maker in overlay.orders
  {
    var maker := overlay.orders[t.maker];
    FillTrade(ask.taker, maker.owner, ask.outcome, ask.side, maker.price, Min(remaining, maker.remaining), ask.bps)
  }

  /** An iteration that throws means the specified plan fails too. */
  lemma IterationFails(ask: Request, h: Heap, v: View, funds: Funds, elsewhere: map<Purse, nat>, quantity: nat, cap: nat, fees: nat,
                       overlay: Heap, view: View, ledger: Funds, accrued: nat, remaining: nat, steps: seq<Step>, done: seq<SpecStep>, t: Target)
    requires ListId(ask.outcome, Opposite(ask.side)) in v.prices
    requires OnTrack(ask, h, v, funds, elsewhere, quantity, cap, fees, overlay, view, ledger, accrued, remaining, steps, done)
    requires CanTake(ask.side, ask.limit, Flat(overlay, view, ListId(ask.outcome, Opposite(ask.side))), remaining, cap - |steps|)
    requires HeadTarget(overlay, view, ListId(ask.outcome, Opposite(ask.side)), remaining, t)
    requires var trade := HeadTrade(ask, overlay, remaining, t);
      trade.maker == ask.taker || SettleFunds(ledger, trade).None? || accrued + trade.fee > U64_MAX
    ensures PlanSpec(ask.taker, ask.outcome, ask.side, ask.limit, Flat(h, v, ListId(ask.outcome, Opposite(ask.side))), quantity, cap, ask.bps,
                     funds, fees).None?
  {
    var l := ListId(ask.outcome, Opposite(ask.side));
    hide Consistent, HeadTarget, SettleFunds, PricesCross, CeilFee, Flat, MakerOf, RouteOf;
    TargetFlat(overlay, view, ledger, elsewhere, l, remaining, t);
    FutureStep(ask, Flat(h, v, l), quantity, cap, funds, fees, done, Flat(overlay, view, l), remaining, cap - |steps|, ledger, accrued);
  }

  /** A successful iteration keeps the simulation on track. */
  lemma IterationContinues(ask: Request, h: Heap, v: View, funds: Funds, elsewhere: map<Purse, nat>, quantity: nat, cap: nat, fees: nat,
                           overlay: Heap, view: View, ledger: Funds, accrued: nat, remaining: nat, steps: seq<Step>, done: seq<SpecStep>, t: Target)
    requires ListId(ask.outcome, Opposite(ask.side)) in v.prices
    requires OnTrack(ask, h, v, funds, elsewhere, quantity, cap, fees, overlay, view, ledger, accrued, remaining, steps, done)
    requires CanTake(ask.side, ask.limit, Flat(overlay, view, ListId(ask.outcome, Opposite(ask.side))), remaining, cap - |steps|)
    requires HeadTarget(overlay, view, ListId(ask.outcome, Opposite(ask.side)), remaining, t)
    requires var trade := HeadTrade(ask, overlay, remaining, t);
      trade.maker != ask.taker && SettleFunds(ledger, trade).Some? && accrued + trade.fee <= U64_MAX
    ensures var trade := HeadTrade(ask, overlay, remaining, t);
      && 0 < trade.base <= remaining
      && (if trade.base == overlay.orders[t.maker].remaining then FullReady(overlay, t) && trade.debit == overlay.orders[t.maker].locked
          else PartialReady(overlay, t, trade.base, trade.debit))
      && OnTrack(ask, h, v, funds, elsewhere, quantity, cap, fees, FilledHeap(overlay, t, trade.base, trade.debit),
                 FilledView(overlay, view, t, trade.base), SettleFunds(ledger, trade).value, accrued + trade.fee, remaining - trade.base,
                 steps + [Step(t, remaining, trade.base, trade.quote, trade.fee)],
                 done + [SpecStep(MakerOf(overlay, t.maker), remaining, trade.base)])
  {
    var l := ListId(ask.outcome, Opposite(ask.side));
    hide Consistent, HeadTarget, SettleFunds, PricesCross, CeilFee, Flat, FilledHeap, FilledView, FullReady, PartialReady, SameFuture, MakerOf, RouteOf;
    TargetFlat(overlay, view, ledger, elsewhere, l, remaining, t);
    FutureStep(ask, Flat(h, v, l), quantity, cap, funds, fees, done, Flat(overlay, view, l), remaining, cap - |steps|, ledger, accrued);
    StepAdvances(overlay, view, ledger, elsewhere, l, ask.taker, t, ask.side, remaining, ask.bps);
  }

  lemma TargetFlat(h: Heap, v: View, funds: Funds, elsewhere: map<Purse, nat>, l: ListId, quantity: nat, t: Target)
    requires Consistent(h, v, funds, elsewhere) && l in v.prices && HeadTarget(h, v, l, quantity, t)
    ensures t.maker in h.orders && Flat(h, v, l) != [] && Flat(h, v, l)[0] == MakerOf(h, t.maker)
    ensures var maker := h.orders[t.maker];
      var flat := MakerOf(h, t.maker);
      && maker.remaining > 0
      && flat.key == t.maker && flat.owner == maker.owner && flat.price == maker.price && flat.remaining == maker.remaining
      && Route(t.next, t.worse, t.recipient) == RouteOf(flat, Min(quantity, maker.remaining))
  {
    hide WellFormed, Backing, Uncrossed;
    ConsistentIsWellFormed(h, v, funds, elsewhere);
    var lk, rk := HeadFacts(h, v, l);
    QueueEnds(h, v, lk);
  }

  lemma StartsOnTrack(ask: Request, h: Heap, v: View, funds: Funds, elsewhere: map<Purse, nat>, quantity: nat, cap: nat, fees: nat)
    requires PredictionBook(h, v, funds, elsewhere, ask)
    ensures var l := ListId(ask.outcome, Opposite(ask.side));
      && l in v.prices
      && Legal(h.root.kind, l)
      && OnTrack(ask, h, v, funds, elsewhere, quantity, cap, fees, h, v, funds, fees, quantity, [], [])
  {
    hide Consistent, Flat, Leftover, Rest;
    BestIsFlatHead(h, v, funds, elsewhere, ask);
    var l := ListId(ask.outcome, Opposite(ask.side));
    var spec := PlanSpec(ask.taker, ask.outcome, ask.side, ask.limit, Flat(h, v, l), quantity, cap, ask.bps, funds, fees);
    hide PlanSpec;
    if spec.Some? { assert [] + spec.value.steps == spec.value.steps; }
  }

  /** What the loop guard reads off the overlay: the head of the flat sequence, and a target when it can be taken. */
  lemma TrackFacts(ask: Request, h: Heap, v: View, funds: Funds, elsewhere: map<Purse, nat>, quantity: nat, cap: nat, fees: nat,
                   overlay: Heap, view: View, ledger: Funds, accrued: nat, remaining: nat, steps: seq<Step>, done: seq<SpecStep>)
    requires ListId(ask.outcome, Opposite(ask.side)) in v.prices && remaining > 0
    requires OnTrack(ask, h, v, funds, elsewhere, quantity, cap, fees, overlay, view, ledger, accrued, remaining, steps, done)
    ensures var l := ListId(ask.outcome, Opposite(ask.side));
      && Legal(overlay.root.kind, l) && l in view.prices
      && var best := Best(overlay.root, l);
      && StopReason(ask.side, ask.limit, Flat(overlay, view, l), remaining)
         == (if best.None? then BookExhausted else if !PricesCross(ask.side, ask.limit, best.value) then NonCrossing else MatchCap)
      && CanTake(ask.side, ask.limit, Flat(overlay, view, l), remaining, cap - |steps|)
         == (|steps| < cap && best.Some? && PricesCross(ask.side, ask.limit, best.value))
      && (best.Some? ==>
            && ReadMatchTarget(overlay, l, remaining).Some?
            && HeadTarget(overlay, view, l, remaining, ReadMatchTarget(overlay, l, remaining).value))
  {
    hide Consistent, Flat, SameFuture, SameSteps, HeadTarget, ReadMatchTarget, PricesCross;
    BestIsFlatHead(overlay, view, ledger, elsewhere, ask);
    ConsistentIsWellFormed(overlay, view, ledger, elsewhere);
    hide WellFormed;
    ReadFindsHead(overlay, view, ListId(ask.outcome, Opposite(ask.side)), remaining);
  }

  /** A quote only exists for a funded fill of someone else's exactly locked order. */
  lemma QuoteFacts(h: Heap, funds: Funds, taker: Pubkey, target: Target, side: Side, limit: nat, quantity: nat, bps: nat)
    requires bps <= MAX_TAKER_FEE_BPS && ValidateMatch(h, funds, taker, target, side, limit, quantity, bps).Some?
    ensures target.maker in h.orders && target.level in h.levels
    ensures var quote := ValidateMatch(h, funds, taker, target, side, limit, quantity, bps).value;
      var maker := h.orders[target.maker];
      && maker.owner != taker && Cash(taker) in funds && Claim(taker, maker.list.outcome) in funds
      && quote.fill <= quantity && quote.fill <= maker.remaining && quote.fee <= quote.notional
      && (if side.Bid? then quote.cash == quote.notional + quote.fee <= funds[Cash(taker)].free && quote.cash <= U64_MAX && quote.fill <= maker.locked
          else quote.cash == quote.notional - quote.fee && quote.fill <= funds[Claim(taker, maker.list.outcome)].free && quote.notional <= maker.locked)
  {
    hide OnGrid, PricesCross, CeilFee;
    var maker := h.orders[target.maker];
    var fill := Min(quantity, maker.remaining);
    MulMonotone(fill, maker.remaining, maker.price);
    assert maker.price * fill <= maker.price * maker.remaining;
    ClientFeeIsChainFee(maker.price * fill, bps);
  }

  /** The book half of a successful iteration is what the specification says. */
  lemma FilledIs(h: Heap, t: Target, fill: nat, debit: nat, next: Option<Heap>)
    requires t.maker in h.orders && fill <= h.orders[t.maker].remaining
    requires if fill == h.orders[t.maker].remaining then FullReady(h, t) && debit == h.orders[t.maker].locked else PartialReady(h, t, fill, debit)
    requires PartialReady(h, t, fill, debit) ==> next == Some(PartlyFilled(h, t.maker, fill, debit))
    requires FullReady(h, t) && fill == h.orders[t.maker].remaining && debit == h.orders[t.maker].locked ==>
      next == Some(Retired(h, t.maker, FilledOrder(h.orders[t.maker])))
    ensures next == Some(FilledHeap(h, t, fill, debit))
  {
    hide Retired;
  }

  lemma {:induction false} SumsExtend(steps: seq<Step>, s: Step)
    ensures SumNotional(steps + [s]) == SumNotional(steps) + s.notional
    ensures SumFee(steps + [s]) == SumFee(steps) + s.fee
  {
    assert (steps + [s])[..|steps|] == steps;
  }

  datatype Simulated = Simulated(step: Step, cash: nat, overlay: Heap, ledger: Funds, fees: nat)

  /** What one iteration must produce; None stands for a thrown error. */
  ghost function SimulatedSpec(ask: Request, overlay: Heap, ledger: Funds, accrued: nat, remaining: nat, t: Target): Option<Simulated>
    requires t.maker in overlay.orders
  {
    var trade := HeadTrade(ask, overlay, remaining, t);
    if trade.maker == ask.taker || SettleFunds(ledger, trade).None? || accrued + trade.fee > U64_MAX || trade.fee > trade.quote then None
    else Some(Simulated(Step(t, remaining, trade.base, trade.quote, trade.fee),
                        if ask.side.Bid? then trade.quote + trade.fee else trade.quote - trade.fee,
                        FilledHeap(overlay, t, trade.base, trade.debit), SettleFunds(ledger, trade).value, accrued + trade.fee))
  }

  ghost predicate OnHead(ask: Request, overlay: Heap, view: View, ledger: Funds, elsewhere: map<Purse, nat>, remaining: nat, t: Target) {
    && PredictionBook(overlay, view, ledger, elsewhere, ask)
    && remaining > 0 && ask.bps <= MAX_TAKER_FEE_BPS
    && var l := ListId(ask.outcome, Opposite(ask.side));
    && view.prices[l] != [] && PricesCross(ask.side, ask.limit, view.prices[l][0])
    && HeadTarget(overlay, view, l, remaining, t)
  }

  /** The preview of one step is the settlement it will attempt. */
  lemma PreviewDecides(ask: Request, overlay: Heap, view: View, ledger: Funds, elsewhere: map<Purse, nat>, remaining: nat, t: Target)
    requires OnHead(ask, overlay, view, ledger, elsewhere, remaining, t)
    ensures t.maker in overlay.orders && overlay.orders[t.maker].list == ListId(ask.outcome, Opposite(ask.side))
    ensures Legal(overlay.root.kind, overlay.orders[t.maker].list)
    ensures var trade := HeadTrade(ask, overlay, remaining, t);
      var maker := overlay.orders[t.maker];
      var quote := ValidateMatch(overlay, ledger, ask.taker, t, ask.side, ask.limit, remaining, ask.bps);
      && PurseFor(maker.owner, maker.list) in ledger && maker.locked <= ledger[PurseFor(maker.owner, maker.list)].locked
      && (quote.Some? ==> quote.value.fill == trade.base && quote.value.notional == trade.quote && quote.value.fee == trade.fee)
      && (quote.None? ==> SimulatedSpec(ask, overlay, ledger, 0, remaining, t).None?)
  {
    hide Consistent, HeadTarget, SettleFunds, PricesCross, CeilFee, Flat, ValidateMatch, FundsCover, FilledHeap;
    var l := ListId(ask.outcome, Opposite(ask.side));
    BestIsFlatHead(overlay, view, ledger, elsewhere, ask);
    TargetFlat(overlay, view, ledger, elsewhere, l, remaining, t);
    QuoteExact(overlay, view, ledger, elsewhere, l, ask.taker, t, ask.side, ask.limit, remaining, ask.bps);
  }

  /** A settled fill leaves the accounts of the specification. */
  lemma SettledAccounts(ask: Request, overlay: Heap, view: View, ledger: Funds, elsewhere: map<Purse, nat>, remaining: nat, t: Target, next: Option<Heap>)
    requires OnHead(ask, overlay, view, ledger, elsewhere, remaining, t) && t.maker in overlay.orders
    requires var trade := HeadTrade(ask, overlay, remaining, t);
      && SettleFunds(ledger, trade).Some?
      && (PartialReady(overlay, t, trade.base, trade.debit) ==> next == Some(PartlyFilled(overlay, t.maker, trade.base, trade.debit)))
      && (FullReady(overlay, t) && trade.base == overlay.orders[t.maker].remaining && trade.debit == overlay.orders[t.maker].locked ==>
            next == Some(Retired(overlay, t.maker, FilledOrder(overlay.orders[t.maker]))))
    ensures var trade := HeadTrade(ask, overlay, remaining, t);
      next == Some(FilledHeap(overlay, t, trade.base, trade.debit))
  {
    hide Consistent, HeadTarget, SettleFunds, PricesCross, CeilFee, Flat, FilledHeap, FullReady, PartialReady, Retired, PartlyFilled, FilledView;
    var trade := HeadTrade(ask, overlay, remaining, t);
    StepAdvances(overlay, view, ledger, elsewhere, ListId(ask.outcome, Opposite(ask.side)), ask.taker, t, ask.side, remaining, ask.bps);
    FilledIs(overlay, t, trade.base, trade.debit, next);
  }

  /** One iteration: preview, backing check, ledger, accounts. */
  method SimulateFill(overlay: Heap, ledger: Funds, accrued: nat, remaining: nat, target: Target, ask: Request,
                      ghost view: View, ghost elsewhere: map<Purse, nat>)
    returns (r: Option<Simulated>)
    requires ask.bps <= MAX_TAKER_FEE_BPS
    ensures r.Some? ==>
      var step := r.value.step;
      && step.target == target && step.requested == remaining && step.fill <= remaining && step.fee <= step.notional
      && r.value.cash == (if ask.side.Bid? then step.notional + step.fee else step.notional - step.fee)
      && r.value.fees == accrued + step.fee <= U64_MAX
    ensures OnHead(ask, overlay, view, ledger, elsewhere, remaining, target) ==>
      target.maker in overlay.orders && r == SimulatedSpec(ask, overlay, ledger, accrued, remaining, target)
  {
    hide OnHead, HeadTarget, FullReady, PartialReady, SettleFunds, ValidateMatch, CeilFee, FilledHeap;
    ghost var good := OnHead(ask, overlay, view, ledger, elsewhere, remaining, target);
    if good { PreviewDecides(ask, overlay, view, ledger, elsewhere, remaining, target); }
    var quote := ValidateMatch(overlay, ledger, ask.taker, target, ask.side, ask.limit, remaining, ask.bps);
    if quote.None? { return None; }
    QuoteFacts(overlay, ledger, ask.taker, target, ask.side, ask.limit, remaining, ask.bps);
    var maker := overlay.orders[target.maker];
    var settled := FillLedger(ledger, ask.taker, maker.owner, maker.list.outcome, ask.side, quote.value, maker.locked);
    if settled.None? || accrued + quote.value.fee > U64_MAX { return None; }
    var debit := if ask.side.Ask? then quote.value.notional else quote.value.fill;
    if !Legal(overlay.root.kind, maker.list) { return None; }
    var next := FillAccounts(overlay, target, quote.value.fill, debit);
    if good { SettledAccounts(ask, overlay, view, ledger, elsewhere, remaining, target, next); }
    if next.None? { return None; }
    r := Some(Simulated(Step(target, remaining, quote.value.fill, quote.value.notional, quote.value.fee), quote.value.cash,
                        next.value, settled.value, accrued + quote.value.fee));
  }

  lemma OnTrackLegal(ask: Request, h: Heap, v: View, funds: Funds, elsewhere: map<Purse, nat>, quantity: nat, cap: nat, fees: nat,
                     overlay: Heap, view: View, ledger: Funds, accrued: nat, remaining: nat, steps: seq<Step>, done: seq<SpecStep>)
    requires ListId(ask.outcome, Opposite(ask.side)) in v.prices
    requires OnTrack(ask, h, v, funds, elsewhere, quantity, cap, fees, overlay, view, ledger, accrued, remaining, steps, done)
    ensures Legal(overlay.root.kind, ListId(ask.outcome, Opposite(ask.side)))
    ensures ListId(ask.outcome, Opposite(ask.side)) in view.prices
  {
    hide Consistent, SameFuture, SameSteps, Flat;
    BestIsFlatHead(overlay, view, ledger, elsewhere, ask);
  }

  /** One iteration of the loop, on a consistent book: a refusal is the specification's, and success stays on track. */
  lemma IterationDecides(ask: Request, h: Heap, v: View, funds: Funds, elsewhere: map<Purse, nat>, quantity: nat, cap: nat, fees: nat,
                         overlay: Heap, view: View, ledger: Funds, accrued: nat, remaining: nat, steps: seq<Step>, done: seq<SpecStep>, t: Target)
    requires ListId(ask.outcome, Opposite(ask.side)) in v.prices && ask.bps <= MAX_TAKER_FEE_BPS
    requires OnTrack(ask, h, v, funds, elsewhere, quantity, cap, fees, overlay, view, ledger, accrued, remaining, steps, done)
    requires CanTake(ask.side, ask.limit, Flat(overlay, view, ListId(ask.outcome, Opposite(ask.side))), remaining, cap - |steps|)
    requires HeadTarget(overlay, view, ListId(ask.outcome, Opposite(ask.side)), remaining, t)
    ensures OnHead(ask, overlay, view, ledger, elsewhere, remaining, t)
    ensures t.maker in overlay.orders
    ensures var r := SimulatedSpec(ask, overlay, ledger, accrued, remaining, t);
      if r.None? then
        PlanSpec(ask.taker, ask.outcome, ask.side, ask.limit, Flat(h, v, ListId(ask.outcome, Opposite(ask.side))), quantity, cap, ask.bps, funds, fees).None?
      else
        && 0 < r.value.step.fill <= remaining
        && OnTrack(ask, h, v, funds, elsewhere, quantity, cap, fees, r.value.overlay, FilledView(overlay, view, t, r.value.step.fill), r.value.ledger,
                   r.value.fees, remaining - r.value.step.fill, steps + [r.value.step],
                   done + [SpecStep(MakerOf(overlay, t.maker), remaining, r.value.step.fill)])
        && Legal(r.value.overlay.root.kind, ListId(ask.outcome, Opposite(ask.side)))
  {
    hide Consistent, HeadTarget, SettleFunds, PricesCross, CeilFee, Flat, FilledHeap, FilledView, FullReady, PartialReady, SameFuture, PlanSpec;
    var l := ListId(ask.outcome, Opposite(ask.side));
    BestIsFlatHead(overlay, view, ledger, elsewhere, ask);
    TargetFlat(overlay, view, ledger, elsewhere, l, remaining, t);
    var trade := HeadTrade(ask, overlay, remaining, t);
    PreviewDecides(ask, overlay, view, ledger, elsewhere, remaining, t);
    QuoteExact(overlay, view, ledger, elsewhere, l, ask.taker, t, ask.side, ask.limit, remaining, ask.bps);
    hide OnTrack;
    var r := SimulatedSpec(ask, overlay, ledger, accrued, remaining, t);
    if r.None? {
      IterationFails(ask, h, v, funds, elsewhere, quantity, cap, fees, overlay, view, ledger, accrued, remaining, steps, done, t);
    } else {
      IterationContinues(ask, h, v, funds, elsewhere, quantity, cap, fees, overlay, view, ledger, accrued, remaining, steps, done, t);
      OnTrackLegal(ask, h, v, funds, elsewhere, quantity, cap, fees, r.value.overlay, FilledView(overlay, view, t, r.value.step.fill),
                   r.value.ledger, r.value.fees, remaining - r.value.step.fill, steps + [r.value.step],
                   done + [SpecStep(MakerOf(overlay, t.maker), remaining, r.value.step.fill)]);
    }
  }

  /**
   * `planPredictionMatches` for any cap. Whenever the request is valid and the snapshot is a consistent prediction
   * book, it returns a plan exactly when the walk meets no self-owned maker and every fill can be funded, and then
   * the plan, its ledger, its stop reason and its final overlay are those of the walk.
   */
  method PlanPredictionMatches(h: Heap, funds: Funds, open: bool, taker: Pubkey, outcome: Outcome, side: Side, limit: int, quantity: int,
                               bps: int, fees: int, cap: nat, ghost v: View, ghost elsewhere: map<Purse, nat>)
    returns (r: Option<Result>, ghost after: View)
    ensures !ValidRequest(h.root, outcome, limit, quantity, bps, fees, open) ==> r.None?
    ensures r.Some? ==> |r.value.steps| <= cap
                        && SumsRight(side, r.value.steps, r.value.totalNotional, r.value.totalFee, r.value.totalCash)
    ensures ValidRequest(h.root, outcome, limit, quantity, bps, fees, open) ==>
      PlanIsWalk(Request(taker, outcome, side, limit, bps), h, v, funds, elsewhere, quantity, cap, fees, r, after)
    ensures r.Some? ==>
      var ask := Request(taker, outcome, side, limit, bps);
      PredictionBook(h, v, funds, elsewhere, ask) ==> PlanPays(ask, h, funds, r.value)
  {
    hide PlanPays, PredictionBook, OnTrack, OnHead, PlanAgrees, HeadTarget, ReadMatchTarget, PlanSpec, Flat, SimulatedSpec, FilledView, PricesCross;
    after := v;
    if !ValidRequest(h.root, outcome, limit, quantity, bps, fees, open) { return None, v; }
    var ask := Request(taker, outcome, side, limit, bps);
    var l := ListId(outcome, Opposite(side));
    ghost var good := PredictionBook(h, v, funds, elsewhere, ask);
    var overlay, ledger, accrued: nat, remaining: nat, steps := h, funds, fees, quantity, [];
    var totalNotional: nat, totalFee: nat, totalCash: nat := 0, 0, 0;
    ghost var done: seq<SpecStep> := [];
    if good { StartsOnTrack(ask, h, v, funds, elsewhere, quantity, cap, fees); }
    while |steps| < cap
      invariant |steps| <= cap && 0 < remaining <= quantity && accrued <= U64_MAX
      invariant Legal(overlay.root.kind, l)
      invariant SumsRight(side, steps, totalNotional, totalFee, totalCash)
      invariant good ==> l in v.prices
      invariant good ==> OnTrack(ask, h, v, funds, elsewhere, quantity, cap, fees, overlay, after, ledger, accrued, remaining, steps, done)
    {
      if good { TrackFacts(ask, h, v, funds, elsewhere, quantity, cap, fees, overlay, after, ledger, accrued, remaining, steps, done); }
      var best := Best(overlay.root, l);
      if best.None? || !PricesCross(side, limit, best.value) {
        var stop := if best.None? then BookExhausted else NonCrossing;
        r := Some(Result(steps, remaining, totalNotional, totalFee, totalCash, stop, overlay, ledger, accrued));
        if good {
          StopAgrees(ask, h, v, funds, elsewhere, quantity, cap, fees, overlay, after, ledger, accrued, remaining, steps, done, r.value);
        }
        return;
      }
      var target := ReadMatchTarget(overlay, l, remaining);
      if target.None? { return None, v; }
      var next := SimulateFill(overlay, ledger, accrued, remaining, target.value, ask, after, elsewhere);
      if good {
        IterationDecides(ask, h, v, funds, elsewhere, quantity, cap, fees, overlay, after, ledger, accrued, remaining, steps, done, target.value);
      }
      if next.None? || !Legal(next.value.overlay.root.kind, l) { return None, v; }
      var step := next.value.step;
      SumsExtend(steps, step);
      if good {
        after := FilledView(overlay, after, target.value, step.fill);
        done := done + [SpecStep(MakerOf(overlay, target.value.maker), remaining, step.fill)];
      }
      steps, overlay, ledger, accrued := steps + [step], next.value.overlay, next.value.ledger, next.value.fees;
      totalNotional, totalFee, totalCash := totalNotional + step.notional, totalFee + step.fee, totalCash + next.value.cash;
      remaining := remaining - step.fill;
      if remaining == 0 {
        r := Some(Result(steps, remaining, totalNotional, totalFee, totalCash, Stop.Filled, overlay, ledger, accrued));
        if good {
          StopAgrees(ask, h, v, funds, elsewhere, quantity, cap, fees, overlay, after, ledger, accrued, remaining, steps, done, r.value);
        }
        return;
      }
    }
    if good { TrackFacts(ask, h, v, funds, elsewhere, quantity, cap, fees, overlay, after, ledger, accrued, remaining, steps, done); }
    var head := Best(overlay.root, l);
    var stop := if head.None? then BookExhausted else if !PricesCross(side, limit, head.value) then NonCrossing else MatchCap;
    r := Some(Result(steps, remaining, totalNotional, totalFee, totalCash, stop, overlay, ledger, accrued));
    if good {
      StopAgrees(ask, h, v, funds, elsewhere, quantity, cap, fees, overlay, after, ledger, accrued, remaining, steps, done, r.value);
    }
  }

  /** `canPostPredictionRemainder`. */
  predicate CanPostRemainder(remaining: nat, stop: Stop) {
    remaining > 0 && (stop == BookExhausted || stop == NonCrossing)
  }

  /**
   * A remainder may be posted exactly when no level anywhere on the opposing side of the post-fill book crosses the
   * limit, and then the chain's own placement check lets it rest.
   */
  lemma PostableExactlyWhenNothingCrosses(h: Heap, v: View, funds: Funds, elsewhere: map<Purse, nat>, ask: Request, remaining: nat)
    requires PredictionBook(h, v, funds, elsewhere, ask)
    ensures var l := ListId(ask.outcome, Opposite(ask.side));
      CanPostRemainder(remaining, StopReason(ask.side, ask.limit, Flat(h, v, l), remaining)) <==>
        remaining > 0 && forall p <- v.prices[l] :: !PricesCross(ask.side, ask.limit, p)
    ensures Legal(h.root.kind, ListId(ask.outcome, ask.side))
    ensures var l := ListId(ask.outcome, Opposite(ask.side));
      CanPostRemainder(remaining, StopReason(ask.side, ask.limit, Flat(h, v, l), remaining)) ==>
        !WouldCross(h.root, ListId(ask.outcome, ask.side), ask.limit)
  {
    hide Consistent, WellFormed, Flat;
    var l := ListId(ask.outcome, Opposite(ask.side));
    BestIsFlatHead(h, v, funds, elsewhere, ask);
    ConsistentIsWellFormed(h, v, funds, elsewhere);
    RankedPrices(h, v, l);
    assert OtherSide(l) == ListId(ask.outcome, ask.side);
    SlotInjective(h.root.kind, l, OtherSide(l));
    assert Legal(h.root.kind, OtherSide(l));
    if v.prices[l] != [] { assert v.prices[l][0] in v.prices[l]; }
  }

  /** The same for a whole returned plan. */
  lemma ReturnedRemainderNeverCrosses(ask: Request, h: Heap, v: View, funds: Funds, elsewhere: map<Purse, nat>, quantity: nat, cap: nat, fees: nat,
                                      r: Result, after: View)
    requires ListId(ask.outcome, Opposite(ask.side)) in v.prices
    requires PlanAgrees(ask, h, v, funds, elsewhere, quantity, cap, fees, r, after)
    requires CanPostRemainder(r.remaining, r.stop)
    ensures ListId(ask.outcome, Opposite(ask.side)) in after.prices
    ensures forall p <- after.prices[ListId(ask.outcome, Opposite(ask.side))] :: !PricesCross(ask.side, ask.limit, p)
    ensures Legal(r.final.root.kind, ListId(ask.outcome, ask.side)) && !WouldCross(r.final.root, ListId(ask.outcome, ask.side), ask.limit)
  {
    hide Consistent, WellFormed, Flat, PlanSpec, StopReason, PricesCross, WouldCross;
    PostableExactlyWhenNothingCrosses(r.final, after, r.funds, elsewhere, ask, r.remaining);
  }
}
