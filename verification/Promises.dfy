/**
 * What the exchange promises a trader, said only in prices, quantities, and free and locked amounts: when a placement,
 * a cancellation or a match is accepted, what it pays, and what it writes into the order.
 */
module Promises {
  import opened Base
  import opened Settlement
  import opened BookHeap
  import opened Removal
  import opened Updates
  import opened Insertion
  import opened Ledger
  import opened Instructions

  // ------------------------------------------------------------------------ terms

  /** A list of the right kind of book, a price on the grid, a quantity in whole lots, and a value that fits u64. */
  predicate Offerable(root: Root, l: ListId, price: u64, quantity: u64) {
    && (root.kind.SpotKind? <==> l.outcome.Spot?)
    && price > 0 && root.tick > 0 && price % root.tick == 0
    && (root.kind.PredictionKind? ==> price < root.payout)
    && quantity > 0 && root.lot > 0 && quantity % root.lot == 0
    && root.decimals <= 38
    && 0 < Notional(root.decimals, price, quantity) <= U64_MAX
  }

  /** What the order locks: its value for a bid, its quantity for an ask. */
  function LockFor(root: Root, l: ListId, price: u64, quantity: u64): nat {
    if l.side.Bid? then Notional(root.decimals, price, quantity) else quantity
  }

  lemma TermsExactly(root: Root, l: ListId, price: u64, quantity: u64)
    ensures OrderTerms(root, l, price, quantity).Some? <==> Offerable(root, l, price, quantity)
    ensures OrderTerms(root, l, price, quantity).Some? ==> OrderTerms(root, l, price, quantity).value == LockFor(root, l, price, quantity)
  {
    SlotLayout(root.kind, l);
  }

  // ------------------------------------------------------------------- what orders keep

  /** The record of k keeps its owner, list, price, quantities, lock and status; only its links may change. */
  ghost predicate OrderKept(before: Heap, after: Heap, k: Key) {
    && k in before.orders && k in after.orders
    && after.orders[k] == before.orders[k].(previous := after.orders[k].previous, next := after.orders[k].next)
  }

  ghost predicate OtherOrdersKept(before: Heap, after: Heap, k: Key) {
    && (forall x <- after.orders :: x != k ==> x in before.orders)
    && forall x <- before.orders :: x != k ==> OrderKept(before, after, x)
  }

  ghost predicate RootKept(before: Root, after: Root) {
    after == before.(best := after.best, open := after.open, nextId := after.nextId, fees := after.fees)
  }

  // -------------------------------------------------------------------------- placing

  ghost predicate PlacePossible(h: Heap, v: View, funds: Funds, owner: Pubkey, l: ListId, price: u64, quantity: u64, id: u64, hints: PlaceHints)
  {
    && HasAccounts(funds, owner, l.outcome)
    && Offerable(h.root, l, price, quantity)
    && 0 < id == h.root.nextId < U64_MAX && h.root.open < U64_MAX
    && l in v.prices && OtherSide(l) in v.prices
    && (forall p <- v.prices[OtherSide(l)] :: if l.side.Bid? then price < p else p < price)
    && (var amount := LockFor(h.root, l, price, quantity);
        var bucket := if l.side.Bid? then funds[Cash(owner)] else funds[Claim(owner, l.outcome)];
        amount <= bucket.free && bucket.locked + amount <= U64_MAX)
    && var lk := LevelKey(h.root.key, l, price);
    if lk in v.queue then
      && lk in h.levels && hints == AppendHints(h, lk)
      && hints.tail.Some? && hints.tail.value in h.orders && h.orders[hints.tail.value].locked > 0
      && h.levels[lk].count < U64_MAX && h.levels[lk].total + quantity <= U64_MAX
    else hints == GapHints(h.root.key, l, v.prices[l], price)
  }

  /** A placement is refused for its price exactly when it would reach an opposing order. */
  lemma CrossingExactly(h: Heap, v: View, l: ListId, price: u64)
    requires WellFormed(h, v) && l in v.prices
    ensures OtherSide(l) in v.prices && Legal(h.root.kind, l)
    ensures !WouldCross(h.root, l, price) <==> forall p <- v.prices[OtherSide(l)] :: if l.side.Bid? then price < p else p < price
  {
    var o := OtherSide(l);
    ListInView(h, v, l);
    SlotInjective(h.root.kind, l, o) by { SlotLayout(h.root.kind, l); SlotLayout(h.root.kind, o); }
    ListInView(h, v, o);
    assert Ladder(h, o, v.prices[o]) by { assert Ladders(h, v.prices); }
    hide WellFormed;
    if v.prices[o] != [] { assert v.prices[o][0] in v.prices[o]; }
  }

  lemma PlaceAcceptedExactly(h: Heap, v: View, funds: Funds, owner: Pubkey, l: ListId, price: u64, quantity: u64, id: u64, hints: PlaceHints)
    requires WellFormed(h, v)
    ensures PlaceAccepted(h, v, funds, owner, l, price, quantity, id, hints)
      <==> PlacePossible(h, v, funds, owner, l, price, quantity, id, hints)
  {
    hide WellFormed, OrderTerms, Offerable, WouldCross, LockFunds;
    TermsExactly(h.root, l, price, quantity);
    ListInView(h, v, l);
    if l in v.prices { CrossingExactly(h, v, l, price); }
    if OrderTerms(h.root, l, price, quantity).Some? {
      LockingMoves(funds, PurseFor(owner, l), OrderTerms(h.root, l, price, quantity).value);
      PurseIs(owner, l);
      OfferableLegal(h.root, l, price, quantity);
    }
  }

  lemma OfferableLegal(root: Root, l: ListId, price: u64, quantity: u64)
    requires Offerable(root, l, price, quantity)
    ensures Legal(root.kind, l)
  {
    SlotLayout(root.kind, l);
  }

  lemma PurseIs(owner: Pubkey, l: ListId)
    ensures PurseFor(owner, l) == if l.side.Bid? then Cash(owner) else Claim(owner, l.outcome)
  {
  }

  /** The new order and the money behind it. */
  ghost predicate Posted(before: Heap, after: Heap, funds: Funds, funds': Funds, owner: Pubkey, l: ListId, price: u64, quantity: u64, id: u64) {
    && var amount := LockFor(before.root, l, price, quantity);
    var p := if l.side.Bid? then Cash(owner) else Claim(owner, l.outcome);
    var key, lk := OrderKey(before.root.key, id), LevelKey(before.root.key, l, price);
    && Moves(funds, funds', p, 0 - amount, amount) && OthersKept(funds, funds', {p})
    && key !in before.orders && key in after.orders
    && var o := after.orders[key];
    && o.owner == owner && o.list == l && o.price == price && o.quantity == quantity == o.remaining && o.locked == amount && o.status.Open?
    && OtherOrdersKept(before, after, key)
    && lk in after.levels
    && after.levels[lk].rentPayer == (if lk in before.levels then before.levels[lk].rentPayer else owner)
    && RootKept(before.root, after.root) && after.root.nextId == id + 1 && after.root.fees == before.root.fees
  }

  lemma PlacementPosts(h: Heap, v: View, funds: Funds, elsewhere: map<Purse, nat>, owner: Pubkey, l: ListId, price: u64, quantity: u64, id: u64,
                       hints: PlaceHints)
    requires Consistent(h, v, funds, elsewhere) && PlaceAccepted(h, v, funds, owner, l, price, quantity, id, hints)
    ensures Placeable(h, owner, l, price, quantity, hints)
    ensures PlacedFunds(h.root, funds, owner, l, price, quantity).Some?
    ensures Posted(h, PlacedHeap(h, owner, l, price, quantity, hints), funds, PlacedFunds(h.root, funds, owner, l, price, quantity).value,
                   owner, l, price, quantity, id)
  {
    hide Consistent, WellFormed, OrderTerms, WouldCross, LockFunds;
    PlaceKeepsConsistent(h, v, funds, elsewhere, owner, l, price, quantity, id, hints);
    PlacedFacts(h, v, funds, elsewhere, l) by { TermsNeedScale(h.root, l, price, quantity); }
    TermsExactly(h.root, l, price, quantity);
    LockingMoves(funds, PurseFor(owner, l), OrderTerms(h.root, l, price, quantity).value);
    PurseIs(owner, l);
    PlacedRecords(h, owner, l, price, quantity, hints);
    hide PlacedHeap, PlaceAccepted, Moves, OthersKept, OtherOrdersKept;
  }

  lemma PlacedRecords(h: Heap, owner: Pubkey, l: ListId, price: u64, quantity: u64, hints: PlaceHints)
    requires Placeable(h, owner, l, price, quantity, hints) && OrderKey(h.root.key, h.root.nextId) !in h.orders
    ensures var key, lk := OrderKey(h.root.key, h.root.nextId), LevelKey(h.root.key, l, price);
      var after := PlacedHeap(h, owner, l, price, quantity, hints);
      && key in after.orders
      && var o := after.orders[key];
      && o.owner == owner && o.list == l && o.price == price && o.quantity == quantity == o.remaining
      && o.locked == OrderTerms(h.root, l, price, quantity).value && o.status.Open?
      && OtherOrdersKept(h, after, key)
      && lk in after.levels
      && after.levels[lk].rentPayer == (if lk in h.levels then h.levels[lk].rentPayer else owner)
      && RootKept(h.root, after.root) && after.root.nextId == h.root.nextId + 1 && after.root.fees == h.root.fees
  {
    hide OrderTerms;
  }

  // ------------------------------------------------------------------------ cancelling

  ghost predicate CancelPossible(h: Heap, funds: Funds, owner: Pubkey, rk: Key, lk: Key, hints: Hints) {
    && rk in h.orders && h.orders[rk].owner == owner && rk.book == h.root.key && h.orders[rk].status.Open?
    && h.orders[rk].locked > 0
    && (h.orders[rk].previous.Some? ==> h.orders[rk].previous.value in h.orders && h.orders[h.orders[rk].previous.value].locked > 0)
    && (h.orders[rk].next.Some? ==> h.orders[rk].next.value in h.orders && h.orders[h.orders[rk].next.value].locked > 0)
    && lk == h.orders[rk].priceLevel && lk in h.levels && hints == ClientHints(h, rk)
    && var o := h.orders[rk];
    && HasAccounts(funds, owner, o.list.outcome)
    && (if o.list.side.Bid? then funds[Cash(owner)] else funds[Claim(owner, o.list.outcome)]).free + o.locked <= U64_MAX
  }

  /** On a consistent book the lock is always there to be released: only an overflowing balance can refuse it. */
  lemma CancelAcceptedExactly(h: Heap, v: View, funds: Funds, elsewhere: map<Purse, nat>, owner: Pubkey, rk: Key, lk: Key, hints: Hints)
    requires Consistent(h, v, funds, elsewhere)
    ensures CancelAccepted(h, funds, owner, rk, lk, hints) <==> CancelPossible(h, funds, owner, rk, lk, hints)
  {
    hide WellFormed, UnlockFunds;
    if rk in h.orders && rk.book == h.root.key && h.orders[rk].status.Open? {
      var o := h.orders[rk];
      OpenOrderFacts(h, v, rk);
      OpenOrderIsBacked(h, funds, elsewhere, rk);
      UnlockingMoves(funds, PurseFor(owner, o.list), o.locked);
      PurseIs(owner, o.list);
    }
  }

  /** The released lock and the closed order. */
  ghost predicate Released(before: Heap, after: Heap, funds: Funds, funds': Funds, owner: Pubkey, rk: Key) {
    && rk in before.orders && rk in after.orders
    && var o := before.orders[rk];
    var p := if o.list.side.Bid? then Cash(owner) else Claim(owner, o.list.outcome);
    && Moves(funds, funds', p, o.locked, 0 - o.locked) && OthersKept(funds, funds', {p})
    && after.orders[rk] == o.(status := Canceled, locked := 0, previous := None, next := None)
    && OtherOrdersKept(before, after, rk)
    && RootKept(before.root, after.root) && after.root.nextId == before.root.nextId && after.root.fees == before.root.fees
  }

  lemma RetiredRecords(h: Heap, rk: Key, o': Order)
    requires Detachable(h, rk)
    ensures var after := Retired(h, rk, o');
      && rk in after.orders && after.orders[rk] == o' && OtherOrdersKept(h, after, rk)
      && RootKept(h.root, after.root) && after.root.nextId == h.root.nextId && after.root.fees == h.root.fees
  {
  }

  lemma CancellationReleases(h: Heap, funds: Funds, owner: Pubkey, rk: Key)
    requires Detachable(h, rk) && h.orders[rk].owner == owner
    requires UnlockFunds(funds, PurseFor(owner, h.orders[rk].list), h.orders[rk].locked).Some?
    ensures Released(h, Retired(h, rk, CancelledOrder(h.orders[rk])), funds,
                     UnlockFunds(funds, PurseFor(owner, h.orders[rk].list), h.orders[rk].locked).value, owner, rk)
  {
    hide UnlockFunds, Retired;
    RetiredRecords(h, rk, CancelledOrder(h.orders[rk]));
    UnlockingMoves(funds, PurseFor(owner, h.orders[rk].list), h.orders[rk].locked);
    PurseIs(owner, h.orders[rk].list);
  }

  // -------------------------------------------------------------------------- matching

  function Smaller(a: nat, b: nat): nat {
    if a < b then a else b
  }

  /** What a fill takes out of the maker's lock: a bid pays the value, and all it has when it is filled. */
  function LockSpent(o: Order, base: nat, quote: nat): nat {
    if o.list.side.Ask? then base else if base == o.remaining then o.locked else quote
  }

  /** The best opposing price's oldest order, someone else's, at or inside the limit, worth something, and paid for. */
  ghost predicate MatchPossible(h: Heap, v: View, funds: Funds, taker: Pubkey, outcome: Outcome, side: Side, limit: u64, quantity: u64,
                                bps: nat, rk: Key, lk: Key, hints: Hints)
  {
    && Offerable(h.root, ListId(outcome, side), limit, quantity)
    && IsHead(h, v, ListId(outcome, Opposite(side)), rk, lk)
    && rk in h.orders && lk in h.levels
    && var o := h.orders[rk];
    var base := Smaller(quantity, o.remaining);
    var quote := Notional(h.root.decimals, o.price, base);
    var fee := CeilFee(quote, bps);
    && o.owner != taker && o.locked > 0 && o.priceLevel in h.levels
    && (if side.Bid? then o.price <= limit else limit <= o.price)
    && 0 < quote <= U64_MAX && bps <= 1000 && h.root.fees + fee <= U64_MAX
    && (if side.Bid? then BuyPossible(funds, taker, o.owner, outcome, base, quote, fee)
        else SellPossible(funds, taker, o.owner, outcome, base, quote, fee, LockSpent(o, base, quote)))
    && if base == o.remaining then hints == ClientHints(h, rk) && (o.next.Some? ==> o.next.value in h.orders && h.orders[o.next.value].locked > 0)
       else hints == Hints(None, None, None, None, None)
  }

  /** What the fill pays and what it leaves of the maker's order. */
  ghost predicate Matched(before: Heap, after: Heap, funds: Funds, funds': Funds, taker: Pubkey, outcome: Outcome, side: Side, quantity: u64,
                          bps: nat, rk: Key)
  {
    && rk in before.orders && rk in after.orders
    && var o := before.orders[rk];
    var base := Smaller(quantity, o.remaining);
    var quote := Notional(before.root.decimals, o.price, base);
    var fee, spent := CeilFee(quote, bps), LockSpent(o, base, quote);
    && (if side.Bid? then BuyPaid(funds, funds', taker, o.owner, outcome, base, quote, fee)
        else SellPaid(funds, funds', taker, o.owner, outcome, base, quote, fee, spent))
    && spent <= o.locked
    && after.orders[rk].remaining == o.remaining - base && after.orders[rk].locked == o.locked - spent
    && (after.orders[rk].status.Filled? <==> base == o.remaining) && (base < o.remaining ==> OrderFillOnly(o, after.orders[rk]))
    && after.orders[rk].owner == o.owner && after.orders[rk].list == o.list && after.orders[rk].price == o.price && after.orders[rk].quantity == o.quantity
    && OtherOrdersKept(before, after, rk)
    && RootKept(before.root, after.root) && after.root.nextId == before.root.nextId && after.root.fees == before.root.fees + fee
  }

  /** A partly filled order keeps its place and its status. */
  predicate OrderFillOnly(o: Order, o': Order) {
    o' == o.(remaining := o'.remaining, locked := o'.locked)
  }

  /** The settlement of a head maker in plain amounts. */
  lemma HeadTrade(h: Heap, v: View, taker: Pubkey, outcome: Outcome, side: Side, limit: u64, quantity: u64, bps: nat, rk: Key, lk: Key)
    requires WellFormed(h, v) && Legal(h.root.kind, ListId(outcome, Opposite(side))) && h.root.decimals <= MAX_SCALE_DECIMALS
    requires IsHead(h, v, ListId(outcome, Opposite(side)), rk, lk)
    ensures rk in h.orders
    ensures var o := h.orders[rk];
      var base := Smaller(quantity, o.remaining);
      var quote := Notional(h.root.decimals, o.price, base);
      var plan := MatchPlan(h, side, limit, quantity, rk);
      && o.list == ListId(outcome, Opposite(side)) && base == Min(quantity, o.remaining) && o.status.Open?
      && (PricesCross(side, limit, o.price) <==> if side.Bid? then o.price <= limit else limit <= o.price)
      && (plan.Ok? <==> PricesCross(side, limit, o.price) && 0 < quote <= U64_MAX)
      && (plan.Ok? ==>
            && (TakerFee(plan, bps).Some? <==> bps <= 1000)
            && plan.value.fill.quote == quote && (side.Ask? ==> quote <= LockSpent(o, base, quote))
            && plan.value.fill.base == base <= o.remaining && plan.value.makerFull == (base == o.remaining)
            && plan.value.debit == LockSpent(o, base, quote) <= o.locked
            && (bps <= 1000 ==>
                  MatchTrade(o, taker, side, plan.value, TakerFee(plan, bps).value)
                  == Trade(taker, o.owner, outcome, side, base, quote, LockSpent(o, base, quote), if side.Ask? then LockSpent(o, base, quote) - quote else 0,
                           CeilFee(quote, bps))))
  {
    hide WellFormed, Notional, IsHead, Backed;
    HeadIsMaker(h, v, ListId(outcome, Opposite(side)), rk, lk);
    HeadSettlement(h, side, limit, quantity, rk);
    var o := h.orders[rk];
    var quote := Notional(h.root.decimals, o.price, Smaller(quantity, o.remaining));
    if quote <= U64_MAX && bps <= 1000 { ClientFeeIsChainFee(quote, bps); }
    if quote <= U64_MAX { FeeIsCeiling(quote, bps); }
    SpentAmounts(h, side, limit, quantity, rk);
    hide CalculateTakerFee, CeilFee;
  }

  lemma SpentAmounts(h: Heap, side: Side, limit: u64, quantity: u64, rk: Key)
    requires rk in h.orders
    ensures var plan := MatchPlan(h, side, limit, quantity, rk);
      var o := h.orders[rk];
      plan.Ok? ==>
        && plan.value.debit == LockSpent(o, plan.value.fill.base, plan.value.fill.quote)
        && plan.value.refund == (if side.Ask? then plan.value.debit - plan.value.fill.quote else 0)
  {
    hide Notional;
  }

  /** A match is refused exactly where something in this list fails; at or inside the limit it is never the price. */
  lemma MatchAcceptedExactly(h: Heap, v: View, funds: Funds, taker: Pubkey, outcome: Outcome, side: Side, limit: u64, quantity: u64,
                             bps: nat, rk: Key, lk: Key, hints: Hints)
    requires WellFormed(h, v)
    ensures MatchAccepted(h, v, funds, taker, outcome, side, limit, quantity, bps, rk, lk, hints)
      <==> MatchPossible(h, v, funds, taker, outcome, side, limit, quantity, bps, rk, lk, hints)
  {
    hide WellFormed, OrderTerms, Offerable, Notional, IsHead, CalculateTakerFee, CeilFee, SettleFunds, MatchPlan, MatchTrade, PricesCross, LockSpent, BuyPossible,
      SellPossible, TakerFee;
    TermsExactly(h.root, ListId(outcome, side), limit, quantity);
    if Offerable(h.root, ListId(outcome, side), limit, quantity) && IsHead(h, v, ListId(outcome, Opposite(side)), rk, lk) {
      TermsNeedScale(h.root, ListId(outcome, side), limit, quantity);
      SlotLayout(h.root.kind, ListId(outcome, side));
      SlotLayout(h.root.kind, ListId(outcome, Opposite(side)));
      HeadTrade(h, v, taker, outcome, side, limit, quantity, bps, rk, lk);
      var plan := MatchPlan(h, side, limit, quantity, rk);
      if plan.Ok? && bps <= MAX_TAKER_FEE_BPS {
        var trade := MatchTrade(h.orders[rk], taker, side, plan.value, TakerFee(plan, bps).value);
        TradeIsPaid(h, taker, outcome, side, quantity, bps, rk, plan.value, trade);
        SettlementPays(funds, trade);
        FeeIs(plan, bps, trade.quote);
      }
    }
  }

  lemma FeeIs(plan: Result<Plan>, bps: nat, quote: nat)
    requires plan.Ok? && bps <= MAX_TAKER_FEE_BPS && plan.value.fill.quote == quote <= U64_MAX
    ensures TakerFee(plan, bps) == Some(CeilFee(quote, bps))
  {
    ClientFeeIsChainFee(quote, bps);
  }

  /** The trade of an accepted plan is what the settlement promises speak about. */
  lemma TradeIsPaid(h: Heap, taker: Pubkey, outcome: Outcome, side: Side, quantity: u64, bps: nat, rk: Key, plan: Plan, trade: Trade)
    requires rk in h.orders && h.orders[rk].list == ListId(outcome, Opposite(side)) && plan.fill.base == Smaller(quantity, h.orders[rk].remaining)
    requires var o := h.orders[rk];
      var quote := Notional(h.root.decimals, o.price, plan.fill.base);
      && 0 < quote <= U64_MAX && (side.Ask? ==> quote <= LockSpent(o, plan.fill.base, quote))
      && plan.debit == LockSpent(o, plan.fill.base, quote)
      && trade == Trade(taker, o.owner, outcome, side, plan.fill.base, quote, LockSpent(o, plan.fill.base, quote),
                        if side.Ask? then LockSpent(o, plan.fill.base, quote) - quote else 0, CeilFee(quote, bps))
    ensures DebitPays(trade)
  {
    hide Notional, CeilFee;
  }

  /** An accepted match pays everyone in full and takes exactly the fill out of the maker's order. */
  lemma MatchPays(h: Heap, v: View, funds: Funds, elsewhere: map<Purse, nat>, taker: Pubkey, outcome: Outcome, side: Side, limit: u64,
                  quantity: u64, bps: nat, rk: Key, lk: Key, hints: Hints)
    requires Consistent(h, v, funds, elsewhere)
    requires MatchAccepted(h, v, funds, taker, outcome, side, limit, quantity, bps, rk, lk, hints)
    ensures var plan := MatchPlan(h, side, limit, quantity, rk);
      && MatchedFunds(h, funds, taker, side, rk, plan, bps).Some?
      && Matched(h, MatchedHeap(h, rk, plan, bps), funds, MatchedFunds(h, funds, taker, side, rk, plan, bps).value, taker, outcome, side, quantity, bps, rk)
  {
    hide Consistent, WellFormed, OrderTerms, Notional, IsHead, CalculateTakerFee, CeilFee, SettleFunds, MatchPlan, MatchTrade, PricesCross, LockSpent,
      TakerFee, BuyPaid, SellPaid, Detachable, Fillable, Stands, MatchedHeap, OtherOrdersKept;
    ConsistentIsWellFormed(h, v, funds, elsewhere);
    TermsNeedScale(h.root, ListId(outcome, side), limit, quantity);
    SlotLayout(h.root.kind, ListId(outcome, side));
    SlotLayout(h.root.kind, ListId(outcome, Opposite(side)));
    HeadTrade(h, v, taker, outcome, side, limit, quantity, bps, rk, lk);
    MatchKeepsConsistent(h, v, funds, elsewhere, taker, outcome, side, limit, quantity, bps, rk, lk, hints);
    var plan := MatchPlan(h, side, limit, quantity, rk);
    var trade := MatchTrade(h.orders[rk], taker, side, plan.value, TakerFee(plan, bps).value);
    TradeIsPaid(h, taker, outcome, side, quantity, bps, rk, plan.value, trade);
    SettlementPays(funds, trade);
    FeeIs(plan, bps, trade.quote);
    MatchedRecords(h, rk, plan, bps);
  }

  lemma MatchedRecords(h: Heap, rk: Key, plan: Result<Plan>, bps: nat)
    requires plan.Ok? && rk in h.orders && TakerFee(plan, bps).Some? && h.root.fees + TakerFee(plan, bps).value <= U64_MAX
    requires plan.value.fill.base <= h.orders[rk].remaining && plan.value.debit <= h.orders[rk].locked
    requires if plan.value.makerFull then Detachable(h, rk) && plan.value.fill.base == h.orders[rk].remaining && plan.value.debit == h.orders[rk].locked
      else Fillable(h, rk, plan.value.fill.base, plan.value.debit)
    ensures var after := MatchedHeap(h, rk, plan, bps);
      var o := h.orders[rk];
      && rk in after.orders
      && after.orders[rk].remaining == o.remaining - plan.value.fill.base && after.orders[rk].locked == o.locked - plan.value.debit
      && after.orders[rk].owner == o.owner && after.orders[rk].list == o.list && after.orders[rk].price == o.price && after.orders[rk].quantity == o.quantity
      && (plan.value.makerFull ==> after.orders[rk].status.Filled?)
      && (!plan.value.makerFull ==> OrderFillOnly(o, after.orders[rk]))
      && OtherOrdersKept(h, after, rk)
      && RootKept(h.root, after.root) && after.root.nextId == h.root.nextId && after.root.fees == h.root.fees + TakerFee(plan, bps).value
  {
    hide TakerFee, Retired;
    if plan.value.makerFull { RetiredRecords(h, rk, FilledOrder(h.orders[rk])); }
  }

  // ------------------------------------------------------- acceptance and effect together

  lemma PlacePromised(h: Heap, v: View, funds: Funds, elsewhere: map<Purse, nat>, owner: Pubkey, l: ListId, price: u64, quantity: u64, id: u64,
                      hints: PlaceHints)
    requires Consistent(h, v, funds, elsewhere)
    ensures PlaceAccepted(h, v, funds, owner, l, price, quantity, id, hints) <==> PlacePossible(h, v, funds, owner, l, price, quantity, id, hints)
    ensures PlaceAccepted(h, v, funds, owner, l, price, quantity, id, hints) ==>
      && Placeable(h, owner, l, price, quantity, hints)
      && PlacedFunds(h.root, funds, owner, l, price, quantity).Some?
      && Posted(h, PlacedHeap(h, owner, l, price, quantity, hints), funds, PlacedFunds(h.root, funds, owner, l, price, quantity).value,
                owner, l, price, quantity, id)
  {
    hide PlaceAccepted, PlacePossible, Posted, WellFormed;
    ConsistentIsWellFormed(h, v, funds, elsewhere);
    PlaceAcceptedExactly(h, v, funds, owner, l, price, quantity, id, hints);
    if PlaceAccepted(h, v, funds, owner, l, price, quantity, id, hints) {
      PlacementPosts(h, v, funds, elsewhere, owner, l, price, quantity, id, hints);
    }
  }

  lemma CancelPromised(h: Heap, v: View, funds: Funds, elsewhere: map<Purse, nat>, owner: Pubkey, rk: Key, lk: Key, hints: Hints)
    requires Consistent(h, v, funds, elsewhere)
    ensures CancelAccepted(h, funds, owner, rk, lk, hints) <==> CancelPossible(h, funds, owner, rk, lk, hints)
    ensures CancelAccepted(h, funds, owner, rk, lk, hints) ==>
      && Detachable(h, rk)
      && UnlockFunds(funds, PurseFor(owner, h.orders[rk].list), h.orders[rk].locked).Some?
      && Released(h, Retired(h, rk, CancelledOrder(h.orders[rk])), funds,
                  UnlockFunds(funds, PurseFor(owner, h.orders[rk].list), h.orders[rk].locked).value, owner, rk)
  {
    hide CancelPossible, Released, Consistent, Detachable, UnlockFunds, LocksPositive;
    CancelAcceptedExactly(h, v, funds, elsewhere, owner, rk, lk, hints);
    CancelExact(h, v, funds, elsewhere, owner, rk, lk, hints);
    if CancelAccepted(h, funds, owner, rk, lk, hints) { CancellationReleases(h, funds, owner, rk); }
  }

  lemma MatchPromised(h: Heap, v: View, funds: Funds, elsewhere: map<Purse, nat>, taker: Pubkey, outcome: Outcome, side: Side, limit: u64,
                      quantity: u64, bps: nat, rk: Key, lk: Key, hints: Hints)
    requires Consistent(h, v, funds, elsewhere)
    ensures MatchAccepted(h, v, funds, taker, outcome, side, limit, quantity, bps, rk, lk, hints)
      <==> MatchPossible(h, v, funds, taker, outcome, side, limit, quantity, bps, rk, lk, hints)
    ensures MatchAccepted(h, v, funds, taker, outcome, side, limit, quantity, bps, rk, lk, hints) ==>
      var plan := MatchPlan(h, side, limit, quantity, rk);
      && MatchedFunds(h, funds, taker, side, rk, plan, bps).Some?
      && Matched(h, MatchedHeap(h, rk, plan, bps), funds, MatchedFunds(h, funds, taker, side, rk, plan, bps).value, taker, outcome, side, quantity, bps, rk)
  {
    hide MatchAccepted, MatchPossible, Matched, Consistent;
    ConsistentIsWellFormed(h, v, funds, elsewhere);
    MatchAcceptedExactly(h, v, funds, taker, outcome, side, limit, quantity, bps, rk, lk, hints);
    if MatchAccepted(h, v, funds, taker, outcome, side, limit, quantity, bps, rk, lk, hints) {
      MatchPays(h, v, funds, elsewhere, taker, outcome, side, limit, quantity, bps, rk, lk, hints);
    }
  }

  /** The view without order rk, if it stood at lk. */
  ghost function Without(v: View, lk: Key, rk: Key): View {
    if rk.OrderKey? && Stands(v, lk, rk.id) then Deleted(v, lk, rk.id) else v
  }

  /** This very instruction was carried out, or refused and nothing changed. */
  ghost predicate Performed(ix: Instruction, s: Scene, s': Scene, ok: bool) {
    && (!ok ==> s' == s)
    && match ix
       case Place(owner, open, l, price, quantity, id, hints) =>
         && (ok <==> open && PlacePossible(s.heap, s.view, s.funds, owner, l, price, quantity, id, hints))
         && (ok ==> && l in s.view.prices && s'.view == Placed(s.view, LevelKey(s.heap.root.key, l, price), id)
                    && Posted(s.heap, s'.heap, s.funds, s'.funds, owner, l, price, quantity, id))
       case Cancel(owner, rk, lk, hints) =>
         && (ok <==> CancelPossible(s.heap, s.funds, owner, rk, lk, hints))
         && (ok ==> s'.view == Without(s.view, lk, rk) && Released(s.heap, s'.heap, s.funds, s'.funds, owner, rk))
       case Match(taker, open, outcome, side, limit, quantity, bps, rk, lk, next, worse, recipient) =>
         && (ok <==> open && MatchPossible(s.heap, s.view, s.funds, taker, outcome, side, limit, quantity, bps, rk, lk,
                                           Hints(None, next, None, worse, recipient)))
         && (ok ==> && Matched(s.heap, s'.heap, s.funds, s'.funds, taker, outcome, side, quantity, bps, rk)
                    && s'.view == if s'.heap.orders[rk].remaining == 0 then Without(s.view, lk, rk) else s.view)
  }

  /** The first i instructions, each carried out or refused on what the one before it left. */
  ghost predicate Carried(ixs: seq<Instruction>, scenes: seq<Scene>, results: seq<bool>, i: nat) {
    && i <= |ixs| && |results| == i && |scenes| == i + 1
    && forall j :: 0 <= j < i ==> Performed(ixs[j], scenes[j], scenes[j + 1], results[j])
  }

  lemma CarriedStep(ixs: seq<Instruction>, scenes: seq<Scene>, results: seq<bool>, i: nat, s: Scene, ok: bool)
    requires Carried(ixs, scenes, results, i) && i < |ixs| && Performed(ixs[i], scenes[i], s, ok)
    ensures Carried(ixs, scenes + [s], results + [ok], i + 1) && (scenes + [s])[0] == scenes[0] && (scenes + [s])[i + 1] == s
  {
    hide Performed;
  }

  lemma MatchedViewIs(h: Heap, v: View, funds: Funds, elsewhere: map<Purse, nat>, taker: Pubkey, outcome: Outcome, side: Side, limit: u64,
                      quantity: u64, bps: nat, rk: Key, lk: Key, hints: Hints)
    requires Consistent(h, v, funds, elsewhere)
    requires MatchAccepted(h, v, funds, taker, outcome, side, limit, quantity, bps, rk, lk, hints)
    ensures var plan := MatchPlan(h, side, limit, quantity, rk);
      var h' := MatchedHeap(h, rk, plan, bps);
      && rk in h'.orders
      && MatchedView(v, rk, lk, plan) == if h'.orders[rk].remaining == 0 then Without(v, lk, rk) else v
  {
    hide Consistent, MatchAccepted, MatchedHeap, Matched, OrderTerms, Stands, MatchPlan, Detachable, MatchedFunds;
    MatchKeepsConsistent(h, v, funds, elsewhere, taker, outcome, side, limit, quantity, bps, rk, lk, hints);
    MatchPlanFacts(h, v, funds, taker, outcome, side, limit, quantity, bps, rk, lk, hints);
    MatchedRecords(h, rk, MatchPlan(h, side, limit, quantity, rk), bps);
    MatchedRemaining(h, rk, MatchPlan(h, side, limit, quantity, rk));
  }

  lemma MatchPlanFacts(h: Heap, v: View, funds: Funds, taker: Pubkey, outcome: Outcome, side: Side, limit: u64, quantity: u64, bps: nat,
                       rk: Key, lk: Key, hints: Hints)
    requires MatchAccepted(h, v, funds, taker, outcome, side, limit, quantity, bps, rk, lk, hints)
    ensures rk in h.orders
    ensures var plan := MatchPlan(h, side, limit, quantity, rk);
      TakerFee(plan, bps).Some? && h.root.fees + TakerFee(plan, bps).value <= U64_MAX
  {
  }

  lemma MatchedRemaining(h: Heap, rk: Key, plan: Result<Plan>)
    requires plan.Ok? && rk in h.orders
    requires !plan.value.makerFull ==> Fillable(h, rk, plan.value.fill.base, plan.value.debit)
    ensures !plan.value.makerFull ==> plan.value.fill.base < h.orders[rk].remaining
  {
  }
}
