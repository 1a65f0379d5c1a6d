/**
 * What each instruction of the exchange accepts and does, as predicates and functions of the accounts before it, and
 * the proofs that the checks in source terms accept exactly that and keep every invariant.
 */
module Instructions {
  import opened Base
  import opened Settlement
  import opened BookHeap
  import opened Removal
  import opened Updates
  import opened Insertion
  import opened Ledger

  function PlacedFunds(root: Root, funds: Funds, owner: Pubkey, l: ListId, price: u64, quantity: u64): Option<Funds> {
    var terms := OrderTerms(root, l, price, quantity);
    if terms.None? then None else LockFunds(funds, PurseFor(owner, l), terms.value)
  }

  /**
   * What a placement needs: accepted terms, the next id, a price inside the opposing best, funds, free counters, and
   * as hints exactly the tail of an existing level or exactly the two levels around a new price.
   */
  ghost predicate PlaceAccepted(h: Heap, v: View, funds: Funds, owner: Pubkey, l: ListId, price: u64, quantity: u64, id: u64,
                                hints: PlaceHints)
  {
    && Cash(owner) in funds && Claim(owner, l.outcome) in funds
    && OrderTerms(h.root, l, price, quantity).Some?
    && 0 < id == h.root.nextId < U64_MAX && h.root.open < U64_MAX
    && !WouldCross(h.root, l, price)
    && PlacedFunds(h.root, funds, owner, l, price, quantity).Some?
    && l in v.prices
    && var lk := LevelKey(h.root.key, l, price);
    if lk in v.queue then
      && lk in h.levels && hints == AppendHints(h, lk)
      && hints.tail.Some? && hints.tail.value in h.orders && h.orders[hints.tail.value].locked > 0
      && h.levels[lk].count < U64_MAX && h.levels[lk].total + quantity <= U64_MAX
    else hints == GapHints(h.root.key, l, v.prices[l], price)
  }

  lemma LevelExistsInQueue(h: Heap, v: View, k: Key)
    requires WellFormed(h, v) && k.LevelKey? && k.book == h.root.key
    ensures k in h.levels <==> k in v.queue
  {
    if k in v.queue { LevelChecks(h, v, k); }
  }

  lemma PlaceExact(h: Heap, v: View, funds: Funds, elsewhere: map<Purse, nat>, owner: Pubkey, l: ListId, price: u64, quantity: u64,
                   id: u64, hints: PlaceHints)
    requires Consistent(h, v, funds, elsewhere)
    ensures PlaceAccepted(h, v, funds, owner, l, price, quantity, id, hints) <==>
      && Cash(owner) in funds && Claim(owner, l.outcome) in funds
      && OrderTerms(h.root, l, price, quantity).Some?
      && 0 < id == h.root.nextId < U64_MAX && h.root.open < U64_MAX
      && !WouldCross(h.root, l, price)
      && PlacedFunds(h.root, funds, owner, l, price, quantity).Some?
      && var lk := LevelKey(h.root.key, l, price);
      if lk in h.levels then AppendChecks(h, lk, quantity, hints) else InsertChecks(h, l, price, hints)
  {
    hide Consistent, WellFormed, Linked, AppendChecks, InsertChecks, OnGrid, QuoteAmount, WouldCross;
    ConsistentIsWellFormed(h, v, funds, elsewhere);
    var lk := LevelKey(h.root.key, l, price);
    LevelExistsInQueue(h, v, lk);
    if Legal(h.root.kind, l) {
      ListInView(h, v, l);
      if lk in h.levels {
        AppendAcceptsExactlyTail(h, v, lk, quantity, hints);
      } else {
        InsertAcceptsExactlyGap(h, v, l, price, hints);
      }
    }
  }

  /** The account maps after a placement. */
  ghost predicate Placeable(h: Heap, owner: Pubkey, l: ListId, price: u64, quantity: u64, hints: PlaceHints) {
    && OrderTerms(h.root, l, price, quantity).Some?
    && Legal(h.root.kind, l)
    && h.root.nextId < U64_MAX && h.root.open < U64_MAX
    && var lk := LevelKey(h.root.key, l, price);
    if lk in h.levels then
      && hints.tail.Some? && hints.tail.value in h.orders
      && h.levels[lk].count < U64_MAX && h.levels[lk].total + quantity <= U64_MAX
    else
      && hints.tail.None?
      && (hints.better.Some? ==> GapLevel(h, l, hints.better.value))
      && (hints.worse.Some? ==> GapLevel(h, l, hints.worse.value))
  }

  ghost predicate GapLevel(h: Heap, l: ListId, k: Key) {
    k in h.levels && k == LevelKey(h.root.key, l, h.levels[k].price)
  }

  ghost function PlacedHeap(h: Heap, owner: Pubkey, l: ListId, price: u64, quantity: u64, hints: PlaceHints): Heap
    requires Placeable(h, owner, l, price, quantity, hints)
  {
    var no := NewOrder(h.root, owner, l, price, quantity, OrderTerms(h.root, l, price, quantity).value, hints.tail);
    var lk := LevelKey(h.root.key, l, price);
    if lk in h.levels then Appended(h, lk, no)
    else Inserted(h, no, NewLevel(no, PriceOf(h, hints.better), PriceOf(h, hints.worse), owner))
  }

  lemma AcceptedAppendReady(h: Heap, v: View, funds: Funds, owner: Pubkey, l: ListId, price: u64, quantity: u64, id: u64, hints: PlaceHints)
    requires WellFormed(h, v) && PlaceAccepted(h, v, funds, owner, l, price, quantity, id, hints)
    requires LevelKey(h.root.key, l, price) in h.levels
    ensures Placeable(h, owner, l, price, quantity, hints) && LevelKey(h.root.key, l, price) in v.queue
    ensures AppendReady(h, LevelKey(h.root.key, l, price), v.queue[LevelKey(h.root.key, l, price)],
                        NewOrder(h.root, owner, l, price, quantity, OrderTerms(h.root, l, price, quantity).value, hints.tail))
  {
    hide Linked, NoStray, OnGrid, Backed, OrderTerms, WouldCross, LevelCheck;
    var lk := LevelKey(h.root.key, l, price);
    TermsBackOrder(h.root, l, price, quantity);
    LevelExistsInQueue(h, v, lk);
    LevelChecks(h, v, lk);
    QueueEnds(h, v, lk);
    NextIdUnused(h, v);
  }

  lemma AcceptedInsertReady(h: Heap, v: View, funds: Funds, owner: Pubkey, l: ListId, price: u64, quantity: u64, id: u64, hints: PlaceHints)
    requires WellFormed(h, v) && PlaceAccepted(h, v, funds, owner, l, price, quantity, id, hints)
    requires LevelKey(h.root.key, l, price) !in h.levels
    ensures LevelKey(h.root.key, l, price) !in v.queue
    ensures Placeable(h, owner, l, price, quantity, hints)
    ensures var no := NewOrder(h.root, owner, l, price, quantity, OrderTerms(h.root, l, price, quantity).value, hints.tail);
      InsertReady(h, l, v.prices[l], GapOf(l.side, v.prices[l], price), no,
                  NewLevel(no, PriceOf(h, hints.better), PriceOf(h, hints.worse), owner))
  {
    var ps := v.prices[l];
    var g := GapOf(l.side, ps, price);
    assert Ladder(h, l, ps) by { assert Ladders(h, v.prices); }
    hide WellFormed, OnGrid, Backed, OrderTerms;
    TermsBackOrder(h.root, l, price, quantity);
    LevelExistsInQueue(h, v, LevelKey(h.root.key, l, price));
    InsertAcceptsExactlyGap(h, v, l, price, hints);
    GapExists(l.side, ps, price);
    NextIdUnused(h, v);
    if g > 0 {
      RungChecks(h, v, l, g - 1);
      LevelChecks(h, v, LevelKey(h.root.key, l, ps[g - 1]));
    }
    if g < |ps| {
      RungChecks(h, v, l, g);
      LevelChecks(h, v, LevelKey(h.root.key, l, ps[g]));
    }
  }

  /** Every accepted placement keeps every invariant of the exchange. */
  lemma PlaceKeepsConsistent(h: Heap, v: View, funds: Funds, elsewhere: map<Purse, nat>, owner: Pubkey, l: ListId, price: u64,
                             quantity: u64, id: u64, hints: PlaceHints)
    requires Consistent(h, v, funds, elsewhere) && PlaceAccepted(h, v, funds, owner, l, price, quantity, id, hints)
    ensures Placeable(h, owner, l, price, quantity, hints)
    ensures Consistent(PlacedHeap(h, owner, l, price, quantity, hints), Placed(v, LevelKey(h.root.key, l, price), id),
                       PlacedFunds(h.root, funds, owner, l, price, quantity).value, elsewhere)
  {
    hide Consistent, WellFormed, OnGrid, Backed, WouldCross, Appended, Inserted, InsertReady, AppendReady;
    ConsistentIsWellFormed(h, v, funds, elsewhere);
    var lk := LevelKey(h.root.key, l, price);
    var no := NewOrder(h.root, owner, l, price, quantity, OrderTerms(h.root, l, price, quantity).value, hints.tail);
    if lk in h.levels {
      AcceptedAppendReady(h, v, funds, owner, l, price, quantity, id, hints);
      AppendKeepsConsistent(h, v, funds, elsewhere, lk, no);
    } else {
      AcceptedInsertReady(h, v, funds, owner, l, price, quantity, id, hints);
      InsertKeepsConsistent(h, v, funds, elsewhere, l, GapOf(l.side, v.prices[l], price), no,
                            NewLevel(no, PriceOf(h, hints.better), PriceOf(h, hints.worse), owner));
    }
  }

  lemma PlacedFacts(h: Heap, v: View, funds: Funds, elsewhere: map<Purse, nat>, l: ListId)
    requires Consistent(h, v, funds, elsewhere) && Legal(h.root.kind, l)
    ensures l in v.prices && OrderKey(h.root.key, h.root.nextId) !in h.orders
  {
  }

  lemma ListInView(h: Heap, v: View, l: ListId)
    requires WellFormed(h, v)
    ensures Legal(h.root.kind, l) <==> l in v.prices
  {
  }

  /** The exchange between two instructions. */
  datatype Scene = Scene(heap: Heap, view: View, funds: Funds)

  datatype Instruction =
    | Place(trader: Pubkey, open: bool, list: ListId, price: u64, quantity: u64, id: u64, place: PlaceHints)
    | Cancel(trader: Pubkey, order: Key, level: Key, cancel: Hints)
    | Match(trader: Pubkey, open: bool, outcome: Outcome, side: Side, limit: u64, quantity: u64, bps: nat, order: Key, level: Key,
            next: Option<Key>, worse: Option<Key>, recipient: Option<Pubkey>)

  // ---------------------------------------------------------------- conservation

  ghost predicate OwnersBelow(orders: map<Key, Order>, n: nat) {
    forall k <- orders :: orders[k].owner < n
  }

  /** What no instruction changes about a book. */
  ghost predicate SameBook(a: Root, b: Root) {
    a.key == b.key && a.kind == b.kind && a.decimals == b.decimals && a.tick == b.tick && a.lot == b.lot && a.payout == b.payout
  }

  lemma {:induction false} TotalWorthFrame(a: Funds, b: Funds, asset: Option<Outcome>, n: nat)
    requires forall p :: Worth(a, p) == Worth(b, p)
    ensures TotalWorth(a, asset, n) == TotalWorth(b, asset, n)
  {
    if n > 0 { TotalWorthFrame(a, b, asset, n - 1); }
  }

  /** Locking and unlocking move a claim within one bucket. */
  lemma LockingConserves(funds: Funds, p: Purse, amount: nat, n: nat)
    ensures LockFunds(funds, p, amount).Some? ==> forall a :: TotalWorth(LockFunds(funds, p, amount).value, a, n) == TotalWorth(funds, a, n)
    ensures UnlockFunds(funds, p, amount).Some? ==> forall a :: TotalWorth(UnlockFunds(funds, p, amount).value, a, n) == TotalWorth(funds, a, n)
  {
    forall a ensures LockFunds(funds, p, amount).Some? ==> TotalWorth(LockFunds(funds, p, amount).value, a, n) == TotalWorth(funds, a, n) {
      if LockFunds(funds, p, amount).Some? { TotalWorthFrame(LockFunds(funds, p, amount).value, funds, a, n); }
    }
    forall a ensures UnlockFunds(funds, p, amount).Some? ==> TotalWorth(UnlockFunds(funds, p, amount).value, a, n) == TotalWorth(funds, a, n) {
      if UnlockFunds(funds, p, amount).Some? { TotalWorthFrame(UnlockFunds(funds, p, amount).value, funds, a, n); }
    }
  }

  lemma PlacementConserves(h: Heap, funds: Funds, owner: Pubkey, l: ListId, price: u64, quantity: u64, hints: PlaceHints, n: nat)
    requires Placeable(h, owner, l, price, quantity, hints) && PlacedFunds(h.root, funds, owner, l, price, quantity).Some?
    requires OwnersBelow(h.orders, n) && owner < n
    ensures var h' := PlacedHeap(h, owner, l, price, quantity, hints);
      OwnersBelow(h'.orders, n) && h'.root.fees == h.root.fees && SameBook(h'.root, h.root)
    ensures PlacedFunds(h.root, funds, owner, l, price, quantity).value.Keys == funds.Keys
    ensures forall a :: TotalWorth(PlacedFunds(h.root, funds, owner, l, price, quantity).value, a, n) == TotalWorth(funds, a, n)
  {
    hide OrderTerms;
    LockingConserves(funds, PurseFor(owner, l), OrderTerms(h.root, l, price, quantity).value, n);
  }

  lemma RetiredOwners(h: Heap, rk: Key, o': Order, n: nat)
    requires Detachable(h, rk) && OwnersBelow(h.orders, n) && o'.owner == h.orders[rk].owner
    ensures OwnersBelow(Retired(h, rk, o').orders, n) && Retired(h, rk, o').root.fees == h.root.fees
    ensures SameBook(Retired(h, rk, o').root, h.root)
  {
    forall k <- Retired(h, rk, o').orders ensures Retired(h, rk, o').orders[k].owner < n {
      DetachKeepsIdentity(h.orders, h.orders[rk], k);
    }
  }

  lemma CancellationConserves(h: Heap, funds: Funds, rk: Key, p: Purse, n: nat)
    requires Detachable(h, rk) && OwnersBelow(h.orders, n)
    requires UnlockFunds(funds, p, h.orders[rk].locked).Some?
    ensures OwnersBelow(Retired(h, rk, CancelledOrder(h.orders[rk])).orders, n)
    ensures Retired(h, rk, CancelledOrder(h.orders[rk])).root.fees == h.root.fees
    ensures SameBook(Retired(h, rk, CancelledOrder(h.orders[rk])).root, h.root)
    ensures UnlockFunds(funds, p, h.orders[rk].locked).value.Keys == funds.Keys
    ensures forall a :: TotalWorth(UnlockFunds(funds, p, h.orders[rk].locked).value, a, n) == TotalWorth(funds, a, n)
  {
    RetiredOwners(h, rk, CancelledOrder(h.orders[rk]), n);
    LockingConserves(funds, p, h.orders[rk].locked, n);
  }

  /** One fill: cash lost by traders is exactly the accrued fee, contracts only change hands. */
  lemma MatchConserves(h: Heap, v: View, funds: Funds, elsewhere: map<Purse, nat>, taker: Pubkey, outcome: Outcome, takerSide: Side,
                       limit: u64, quantity: u64, bps: nat, rk: Key, lk: Key, hints: Hints, n: nat)
    requires Consistent(h, v, funds, elsewhere) && OwnersBelow(h.orders, n) && taker < n
    requires MatchAccepted(h, v, funds, taker, outcome, takerSide, limit, quantity, bps, rk, lk, hints)
    ensures var plan := MatchPlan(h, takerSide, limit, quantity, rk);
      var h' := MatchedHeap(h, rk, plan, bps);
      var funds' := MatchedFunds(h, funds, taker, takerSide, rk, plan, bps);
      && OwnersBelow(h'.orders, n) && SameBook(h'.root, h.root)
      && funds'.Some? && funds'.value.Keys == funds.Keys
      && TotalWorth(funds'.value, None, n) + h'.root.fees == TotalWorth(funds, None, n) + h.root.fees
      && forall o :: TotalWorth(funds'.value, Some(o), n) == TotalWorth(funds, Some(o), n)
  {
    hide Consistent, WellFormed, OrderTerms, PricesCross, Notional, CalculateTakerFee, Backed, MatchPlan, SettleFunds, Detachable, IsHead, Detached;
    MatchKeepsConsistent(h, v, funds, elsewhere, taker, outcome, takerSide, limit, quantity, bps, rk, lk, hints);
    ConsistentIsWellFormed(h, v, funds, elsewhere);
    TermsNeedScale(h.root, ListId(outcome, takerSide), limit, quantity);
    ListInView(h, v, ListId(outcome, Opposite(takerSide)));
    HeadList(h, v, ListId(outcome, Opposite(takerSide)), rk, lk);
    HeadIsMaker(h, v, ListId(outcome, Opposite(takerSide)), rk, lk);
    HeadSettlement(h, takerSide, limit, quantity, rk);
    var plan := MatchPlan(h, takerSide, limit, quantity, rk);
    var fee := TakerFee(plan, bps).value;
    FillConservesTotals(funds, MatchTrade(h.orders[rk], taker, takerSide, plan.value, fee), n);
    SettlementConserves(funds, MatchTrade(h.orders[rk], taker, takerSide, plan.value, fee));
    if plan.value.makerFull { RetiredOwners(h, rk, FilledOrder(h.orders[rk]), n); }
  }

  // ------------------------------------------------------------------- matching

  /** The maker is the first order of the best opposing level. */
  ghost predicate IsHead(h: Heap, v: View, l: ListId, rk: Key, lk: Key) {
    && l in v.prices && v.prices[l] != [] && lk == LevelKey(h.root.key, l, v.prices[l][0])
    && lk in v.queue && v.queue[lk] != [] && rk == OrderKey(h.root.key, v.queue[lk][0])
  }

  /** The priority checks of `handle_match_shared_order`. */
  predicate HeadMaker(h: Heap, outcome: Outcome, takerSide: Side, rk: Key, lk: Key)
    requires OrderCheck(h, rk) && LevelCheck(h, lk) && Legal(h.root.kind, ListId(outcome, takerSide))
  {
    var o, l := h.orders[rk], h.levels[lk];
    && o.list.outcome == outcome && o.priceLevel == lk && l.list == o.list && l.price == o.price
    && h.root.best[OtherSlot(Slot(h.root.kind, ListId(outcome, takerSide)).value)] == Some(o.price)
    && l.better.None?
    && l.first == Some(rk) && o.previous.None?
  }

  function MatchPlan(h: Heap, takerSide: Side, limit: u64, quantity: u64, rk: Key): Result<Plan> {
    if rk !in h.orders then Err(InvalidQuantity)
    else
      var o := h.orders[rk];
      CalculateSettlement(takerSide, limit, quantity, o.list.side, o.price, o.remaining, o.locked, h.root.decimals)
  }

  function TakerFee(plan: Result<Plan>, bps: nat): Option<u64> {
    if plan.Err? || plan.value.fill.quote > U64_MAX then None else CalculateTakerFee(plan.value.fill.quote, bps)
  }

  function WithFee(h: Heap, fee: nat): Heap {
    if h.root.fees + fee <= U64_MAX then Heap(h.root.(fees := h.root.fees + fee), h.orders, h.levels) else h
  }

  /** The accounts after the fill: a filled maker is retired, a partly filled one stays in place. */
  ghost function MatchedHeap(h: Heap, rk: Key, plan: Result<Plan>, bps: nat): Heap {
    if plan.Err? || TakerFee(plan, bps).None? || rk !in h.orders then h
    else if plan.value.makerFull then
      if Detachable(h, rk) then WithFee(Retired(h, rk, FilledOrder(h.orders[rk])), TakerFee(plan, bps).value) else h
    else if Fillable(h, rk, plan.value.fill.base, plan.value.debit) then
      WithFee(PartlyFilled(h, rk, plan.value.fill.base, plan.value.debit), TakerFee(plan, bps).value)
    else h
  }

  ghost function MatchedView(v: View, rk: Key, lk: Key, plan: Result<Plan>): View {
    if plan.Ok? && plan.value.makerFull && rk.OrderKey? && Stands(v, lk, rk.id) then Deleted(v, lk, rk.id) else v
  }

  function MatchTrade(o: Order, taker: Pubkey, takerSide: Side, plan: Plan, fee: nat): Trade {
    Trade(taker, o.owner, o.list.outcome, takerSide, plan.fill.base, plan.fill.quote, plan.debit, plan.refund, fee)
  }

  function MatchedFunds(h: Heap, funds: Funds, taker: Pubkey, takerSide: Side, rk: Key, plan: Result<Plan>, bps: nat): Option<Funds> {
    if rk !in h.orders || plan.Err? || TakerFee(plan, bps).None? then None
    else SettleFunds(funds, MatchTrade(h.orders[rk], taker, takerSide, plan.value, TakerFee(plan, bps).value))
  }

  /**
   * What a match needs: acceptable limit terms, the head of the best opposing level owned by someone else with a
   * positive lock, crossing prices, a fill worth at least one quote atom, a legal fee, funds, and exactly the routing
   * hints that repairing (or not touching) the book needs.
   */
  ghost predicate MatchAccepted(h: Heap, v: View, funds: Funds, taker: Pubkey, outcome: Outcome, takerSide: Side, limit: u64,
                                quantity: u64, bps: nat, rk: Key, lk: Key, hints: Hints)
  {
    && OrderTerms(h.root, ListId(outcome, takerSide), limit, quantity).Some?
    && IsHead(h, v, ListId(outcome, Opposite(takerSide)), rk, lk)
    && rk in h.orders && lk in h.levels
    && var o := h.orders[rk];
    var base := Min(quantity, o.remaining);
    && o.owner != taker && o.locked > 0 && o.priceLevel in h.levels
    && PricesCross(takerSide, limit, o.price)
    && 0 < Notional(h.root.decimals, o.price, base) <= U64_MAX
    && bps <= MAX_TAKER_FEE_BPS
    && var plan := MatchPlan(h, takerSide, limit, quantity, rk);
    && TakerFee(plan, bps).Some? && h.root.fees + TakerFee(plan, bps).value <= U64_MAX
    && MatchedFunds(h, funds, taker, takerSide, rk, plan, bps).Some?
    && if base == o.remaining then hints == ClientHints(h, rk) && PositiveLock(h, o.next)
       else hints == Hints(None, None, None, None, None)
  }

  /** Under the invariants the priority checks accept exactly the head of the best opposing level. */
  lemma HeadExact(h: Heap, v: View, outcome: Outcome, takerSide: Side, rk: Key, lk: Key)
    requires WellFormed(h, v) && Legal(h.root.kind, ListId(outcome, takerSide))
    ensures IsHead(h, v, ListId(outcome, Opposite(takerSide)), rk, lk) && rk in h.orders && h.orders[rk].locked > 0 <==>
      && OrderCheck(h, rk) && LevelCheck(h, lk) && HeadMaker(h, outcome, takerSide, rk, lk)
      && takerSide != h.orders[rk].list.side
  {
    var l := ListId(outcome, Opposite(takerSide));
    assert Legal(h.root.kind, l) && OtherSide(ListId(outcome, takerSide)) == l;
    ListInView(h, v, l);
    SlotInjective(h.root.kind, ListId(outcome, takerSide), l);
    hide WellFormed;
    if OrderCheck(h, rk) && LevelCheck(h, lk) && HeadMaker(h, outcome, takerSide, rk, lk) && takerSide != h.orders[rk].list.side {
      HeadMakerIsHead(h, v, l, rk, lk);
    }
    if IsHead(h, v, l, rk, lk) {
      HeadIsMaker(h, v, l, rk, lk);
    }
  }

  lemma HeadMakerIsHead(h: Heap, v: View, l: ListId, rk: Key, lk: Key)
    requires WellFormed(h, v) && Legal(h.root.kind, l) && l in v.prices
    requires OrderCheck(h, rk) && LevelCheck(h, lk) && h.orders[rk].list == l && h.levels[lk].list == l
    requires Best(h.root, l) == Some(h.levels[lk].price) && h.levels[lk].first == Some(rk)
    ensures IsHead(h, v, l, rk, lk)
  {
    assert Ladder(h, l, v.prices[l]) by { assert Ladders(h, v.prices); }
    assert lk in v.queue;
    hide Ladders, Queues, NoStray, OrderCheck;
    QueueEnds(h, v, lk);
  }

  lemma HeadIsMaker(h: Heap, v: View, l: ListId, rk: Key, lk: Key)
    requires WellFormed(h, v) && Legal(h.root.kind, l) && IsHead(h, v, l, rk, lk)
    ensures rk in h.orders && OrderCheck(h, rk) == (h.orders[rk].locked > 0) && LevelCheck(h, lk)
    ensures rk.book == h.root.key && h.orders[rk].status.Open?
    ensures var o, lvl := h.orders[rk], h.levels[lk];
      && o.list == l && o.priceLevel == lk && lvl.list == l && lvl.price == o.price
      && Best(h.root, l) == Some(o.price) && lvl.better.None? && lvl.first == Some(rk) && o.previous.None?
      && o.remaining <= lvl.total && lk == o.priceLevel
      && Backed(o.list.side, h.root.decimals, o.price, o.remaining, o.locked)
  {
    assert Ladder(h, l, v.prices[l]) by { assert Ladders(h, v.prices); }
    RungChecks(h, v, l, 0);
    LevelChecks(h, v, lk);
    QueueEnds(h, v, lk);
    NodeChecks(h, v, lk, 0);
    TotalExceeds(h, v, lk, 0);
    HeadNode(h, v, lk);
    hide WellFormed, OrderCheck, LevelCheck, Backed;
  }

  lemma HeadNode(h: Heap, v: View, lk: Key)
    requires Linked(h, v) && lk in v.queue && lk.LevelKey? && v.queue[lk] != []
    ensures Node(h, lk, v.queue[lk], 0)
  {
    assert Queue(h, lk, v.queue[lk]);
  }

  /** The checks of `handle_match_shared_order` before any amount is computed. */
  predicate MatchGate(h: Heap, taker: Pubkey, outcome: Outcome, takerSide: Side, limit: u64, quantity: u64, rk: Key, lk: Key) {
    && OrderTerms(h.root, ListId(outcome, takerSide), limit, quantity).Some?
    && Legal(h.root.kind, ListId(outcome, takerSide))
    && rk in h.orders && lk in h.levels
    && OrderCheck(h, rk) && LevelCheck(h, lk)
    && h.orders[rk].owner != taker
    && HeadMaker(h, outcome, takerSide, rk, lk)
  }

  lemma GateFacts(h: Heap, v: View, taker: Pubkey, outcome: Outcome, takerSide: Side, limit: u64, quantity: u64, rk: Key, lk: Key)
    requires WellFormed(h, v) && MatchGate(h, taker, outcome, takerSide, limit, quantity, rk, lk)
    ensures rk in h.orders && lk in h.levels && h.orders[rk].priceLevel == lk && h.orders[rk].list.outcome == outcome
    ensures var o := h.orders[rk]; Backed(o.list.side, h.root.decimals, o.price, o.remaining, o.locked)
  {
    CheckedOrderBacked(h, v, rk);
  }

  /** The checks of `handle_match_shared_order`, in source order. */
  ghost predicate MatchChecks(h: Heap, funds: Funds, taker: Pubkey, outcome: Outcome, takerSide: Side, limit: u64, quantity: u64,
                              bps: nat, rk: Key, lk: Key, hints: Hints)
  {
    && MatchGate(h, taker, outcome, takerSide, limit, quantity, rk, lk)
    && var plan := MatchPlan(h, takerSide, limit, quantity, rk);
    && plan.Ok?
    && TakerFee(plan, bps).Some? && h.root.fees + TakerFee(plan, bps).value <= U64_MAX
    && plan.value.fill.base <= h.orders[rk].remaining && plan.value.debit <= h.orders[rk].locked
    && plan.value.fill.base <= h.levels[lk].total
    && MatchedFunds(h, funds, taker, takerSide, rk, plan, bps).Some?
    && if plan.value.makerFull then RemoveChecks(h, rk, lk, hints)
       else hints.next.None? && hints.worse.None? && hints.recipient.None?
  }

  /** The settlement of a head maker, read off the invariants. */
  lemma HeadSettlement(h: Heap, takerSide: Side, limit: u64, quantity: u64, rk: Key)
    requires rk in h.orders
    requires var o := h.orders[rk]; Backed(o.list.side, h.root.decimals, o.price, o.remaining, o.locked)
    ensures var o := h.orders[rk];
      var base := Min(quantity, o.remaining);
      var plan := MatchPlan(h, takerSide, limit, quantity, rk);
      && (plan.Ok? <==> && takerSide != o.list.side && PricesCross(takerSide, limit, o.price)
                        && h.root.decimals <= MAX_SCALE_DECIMALS && 0 < Notional(h.root.decimals, o.price, base) <= U64_MAX)
      && (plan.Ok? ==>
            && plan.value.fill.base == base && base <= o.remaining && plan.value.debit <= o.locked
            && plan.value.fill.quote == Notional(h.root.decimals, o.price, base)
            && plan.value.makerFull == (base == o.remaining)
            && (plan.value.makerFull ==> plan.value.debit == o.locked)
            && Backed(o.list.side, h.root.decimals, o.price, o.remaining - base, o.locked - plan.value.debit)
            && plan.value.debit == (if takerSide.Ask? then plan.value.fill.quote + plan.value.refund else base))
  {
    var o := h.orders[rk];
    hide Backed, CalculateSettlement, PricesCross;
    SettlementSucceedsExactly(takerSide, limit, quantity, o.list.side, o.price, o.remaining, o.locked, h.root.decimals);
    if MatchPlan(h, takerSide, limit, quantity, rk).Ok? {
      SettlementKeepsBacking(takerSide, limit, quantity, o.list.side, o.price, o.remaining, o.locked, h.root.decimals);
    }
  }

  lemma TermsNeedScale(root: Root, l: ListId, price: u64, quantity: u64)
    requires OrderTerms(root, l, price, quantity).Some?
    ensures Legal(root.kind, l) && root.decimals <= MAX_SCALE_DECIMALS
  {
  }

  lemma MatchExact(h: Heap, v: View, funds: Funds, elsewhere: map<Purse, nat>, taker: Pubkey, outcome: Outcome, takerSide: Side,
                   limit: u64, quantity: u64, bps: nat, rk: Key, lk: Key, hints: Hints)
    requires Consistent(h, v, funds, elsewhere) && hints.previous.None? && hints.better.None?
    ensures MatchAccepted(h, v, funds, taker, outcome, takerSide, limit, quantity, bps, rk, lk, hints)
      <==> MatchChecks(h, funds, taker, outcome, takerSide, limit, quantity, bps, rk, lk, hints)
  {
    hide Consistent, WellFormed, OrderTerms, OrderCheck, LevelCheck, HeadMaker, IsHead, MatchPlan, MatchedFunds, RemoveChecks, Notional,
      CalculateTakerFee, Backed, PricesCross;
    ConsistentIsWellFormed(h, v, funds, elsewhere);
    if OrderTerms(h.root, ListId(outcome, takerSide), limit, quantity).Some? {
      TermsNeedScale(h.root, ListId(outcome, takerSide), limit, quantity);
      HeadExact(h, v, outcome, takerSide, rk, lk);
      if IsHead(h, v, ListId(outcome, Opposite(takerSide)), rk, lk) {
        HeadIsMaker(h, v, ListId(outcome, Opposite(takerSide)), rk, lk);
        HeadSettlement(h, takerSide, limit, quantity, rk);
        ChecksAcceptExactlyClientHints(h, v, rk, lk, hints);
        FeeNeedsLegalRate(MatchPlan(h, takerSide, limit, quantity, rk), bps);
        HeadHasNoPrevious(h, v, ListId(outcome, Opposite(takerSide)), rk, lk);
      } else if rk in h.orders && h.orders[rk].list.side == takerSide {
        SameSideNeverSettles(h, takerSide, limit, quantity, rk);
      }
    }
  }

  lemma CheckedOrderBacked(h: Heap, v: View, rk: Key)
    requires WellFormed(h, v) && OrderCheck(h, rk)
    ensures rk in h.orders && var o := h.orders[rk]; Backed(o.list.side, h.root.decimals, o.price, o.remaining, o.locked)
  {
    var lk, i, p := StandingAt(h, v, rk);
  }

  lemma SameSideNeverSettles(h: Heap, takerSide: Side, limit: u64, quantity: u64, rk: Key)
    requires rk in h.orders && h.orders[rk].list.side == takerSide
    ensures MatchPlan(h, takerSide, limit, quantity, rk).Err?
  {
  }

  lemma HeadHasNoPrevious(h: Heap, v: View, l: ListId, rk: Key, lk: Key)
    requires WellFormed(h, v) && Legal(h.root.kind, l) && IsHead(h, v, l, rk, lk)
    ensures rk in h.orders && h.orders[rk].previous.None?
    ensures LocksPositive(h, rk) <==> h.orders[rk].locked > 0 && PositiveLock(h, h.orders[rk].next)
  {
    HeadIsMaker(h, v, l, rk, lk);
  }

  lemma FeeNeedsLegalRate(plan: Result<Plan>, bps: nat)
    ensures TakerFee(plan, bps).Some? ==> bps <= MAX_TAKER_FEE_BPS
  {
  }

  lemma FeeLeavesLists(h: Heap, v: View, fee: nat)
    requires WellFormed(h, v)
    ensures WellFormed(WithFee(h, fee), v)
  {
    FeeLadders(h, v, fee);
    FeeQueues(h, v, fee);
    hide Ladders, Queues;
  }

  lemma FeeLadders(h: Heap, v: View, fee: nat)
    requires WellFormed(h, v)
    ensures Ladders(WithFee(h, fee), v.prices)
  {
    var h' := WithFee(h, fee);
    forall l <- v.prices ensures Ladder(h', l, v.prices[l]) {
      assert Ladder(h, l, v.prices[l]);
      forall x <- v.prices[l] ensures SameLinks(h, h', LevelKey(h.root.key, l, x)) {
        RungChecks(h, v, l, IndexOf(v.prices[l], x));
      }
      LadderFrame(h, h', l, v.prices[l]);
    }
  }

  lemma FeeQueues(h: Heap, v: View, fee: nat)
    requires WellFormed(h, v)
    ensures Queues(WithFee(h, fee), v)
  {
    var h' := WithFee(h, fee);
    forall k <- v.queue ensures OwnLevel(h', v, k) && Queue(h', k, v.queue[k]) {
      assert OwnLevel(h, v, k) && Queue(h, k, v.queue[k]);
      hide Ladders, Queues, NoStray;
      OnGridFrame(h.root, h'.root, k.price);
      hide OnGrid;
      forall id <- v.queue[k] ensures SameOrder(h.orders, h'.orders, OrderKey(h.root.key, id)) {
        assert Node(h, k, v.queue[k], IndexOf(v.queue[k], id));
      }
      QueueFrame(h, h', k, v.queue[k]);
    }
  }

  lemma FeeLeavesConsistent(h: Heap, v: View, funds: Funds, elsewhere: map<Purse, nat>, fee: nat)
    requires Consistent(h, v, funds, elsewhere)
    ensures Consistent(WithFee(h, fee), v, funds, elsewhere)
  {
    hide WellFormed;
    FeeLeavesLists(h, v, fee);
    var h' := WithFee(h, fee);
    forall p <- funds ensures PurseBacks(h', funds, elsewhere, p) {
      assert PurseBacks(h, funds, elsewhere, p);
    }
  }

  /** Every accepted match keeps every invariant of the exchange. */
  lemma MatchKeepsConsistent(h: Heap, v: View, funds: Funds, elsewhere: map<Purse, nat>, taker: Pubkey, outcome: Outcome, takerSide: Side,
                             limit: u64, quantity: u64, bps: nat, rk: Key, lk: Key, hints: Hints)
    requires Consistent(h, v, funds, elsewhere)
    requires MatchAccepted(h, v, funds, taker, outcome, takerSide, limit, quantity, bps, rk, lk, hints)
    ensures var plan := MatchPlan(h, takerSide, limit, quantity, rk);
      && plan.Ok?
      && rk.OrderKey? && Stands(v, lk, rk.id) && h.orders[rk].priceLevel == lk
      && (plan.value.makerFull ==> Detachable(h, rk) && plan.value.fill.base == h.orders[rk].remaining && plan.value.debit == h.orders[rk].locked)
      && (!plan.value.makerFull ==> Fillable(h, rk, plan.value.fill.base, plan.value.debit))
      && Consistent(MatchedHeap(h, rk, plan, bps), MatchedView(v, rk, lk, plan),
                    MatchedFunds(h, funds, taker, takerSide, rk, plan, bps).value, elsewhere)
  {
    hide Consistent, WellFormed, OrderTerms, PricesCross, Notional, CalculateTakerFee, Backed, MatchPlan, SettleFunds, RemoveChecks, Detachable,
      Fillable, IsHead;
    ConsistentIsWellFormed(h, v, funds, elsewhere);
    TermsNeedScale(h.root, ListId(outcome, takerSide), limit, quantity);
    ListInView(h, v, ListId(outcome, Opposite(takerSide)));
    HeadList(h, v, ListId(outcome, Opposite(takerSide)), rk, lk);
    HeadIsMaker(h, v, ListId(outcome, Opposite(takerSide)), rk, lk);
    HeadSettlement(h, takerSide, limit, quantity, rk);
    RemovalIsDeletion(h, v, rk);
    var plan := MatchPlan(h, takerSide, limit, quantity, rk).value;
    var fee := TakerFee(Ok(plan), bps).value;
    var trade := MatchTrade(h.orders[rk], taker, takerSide, plan, fee);
    if plan.makerFull {
      FullFillKeepsConsistent(h, v, funds, elsewhere, rk, trade);
      FeeLeavesConsistent(Retired(h, rk, FilledOrder(h.orders[rk])), Deleted(v, lk, rk.id), SettleFunds(funds, trade).value, elsewhere, fee);
    } else {
      PartialFillKeepsConsistent(h, v, funds, elsewhere, rk, trade);
      FeeLeavesConsistent(PartlyFilled(h, rk, trade.base, trade.debit), v, SettleFunds(funds, trade).value, elsewhere, fee);
    }
  }

  lemma HeadList(h: Heap, v: View, l: ListId, rk: Key, lk: Key)
    requires IsHead(h, v, l, rk, lk)
    ensures l in v.prices
  {
  }

  /** What a cancellation needs: the owner's open order, exactly the client's hints, and room for the refund. */
  ghost predicate CancelAccepted(h: Heap, funds: Funds, owner: Pubkey, rk: Key, lk: Key, hints: Hints) {
    && rk in h.orders && h.orders[rk].owner == owner
    && rk.book == h.root.key && h.orders[rk].status.Open? && LocksPositive(h, rk)
    && lk == h.orders[rk].priceLevel && lk in h.levels && hints == ClientHints(h, rk)
    && Cash(owner) in funds && Claim(owner, h.orders[rk].list.outcome) in funds
    && UnlockFunds(funds, PurseFor(owner, h.orders[rk].list), h.orders[rk].locked).Some?
  }

  lemma CancelExact(h: Heap, v: View, funds: Funds, elsewhere: map<Purse, nat>, owner: Pubkey, rk: Key, lk: Key, hints: Hints)
    requires Consistent(h, v, funds, elsewhere)
    ensures CancelAccepted(h, funds, owner, rk, lk, hints) <==>
      && rk in h.orders && h.orders[rk].owner == owner
      && Cash(owner) in funds && Claim(owner, h.orders[rk].list.outcome) in funds
      && OrderCheck(h, rk) && RemoveChecks(h, rk, lk, hints)
      && UnlockFunds(funds, PurseFor(owner, h.orders[rk].list), h.orders[rk].locked).Some?
    ensures CancelAccepted(h, funds, owner, rk, lk, hints) ==> rk.OrderKey? && Stands(v, lk, rk.id) && Detachable(h, rk)
  {
    hide Linked, NoStray, Backing, Uncrossed;
    if rk in h.orders {
      ChecksAcceptExactlyClientHints(h, v, rk, lk, hints);
      if rk.book == h.root.key && h.orders[rk].status.Open? {
        OpenOrderFacts(h, v, rk);
        OpenOrderIsBacked(h, funds, elsewhere, rk);
        RemovalIsDeletion(h, v, rk);
      }
    }
  }

  lemma RemovableOrder(h: Heap, v: View, rk: Key, lk: Key, hints: Hints)
    requires WellFormed(h, v) && RemoveChecks(h, rk, lk, hints)
    ensures Detachable(h, rk) && lk == h.orders[rk].priceLevel && hints == ClientHints(h, rk)
    ensures h.orders[rk].list == h.levels[lk].list
    ensures rk.book == h.root.key && h.orders[rk].status.Open?
  {
    ChecksAcceptExactlyClientHints(h, v, rk, lk, hints);
  }

  ghost function EmptyView(kind: Kind): View {
    View(map l | l in {ListId(Spot, Bid), ListId(Spot, Ask), ListId(Yes, Bid), ListId(Yes, Ask), ListId(No, Bid), ListId(No, Ask)}
             && Legal(kind, l) :: [], map[])
  }

  lemma EmptyBookConsistent(h: Heap, funds: Funds, elsewhere: map<Purse, nat>)
    requires h.orders == map[] && h.levels == map[] && SoundRoot(h.root)
    requires h.root.nextId == 1 && h.root.open == 0 && h.root.best == [None, None, None, None]
    requires elsewhere == map p | p in funds :: funds[p].locked
    ensures Consistent(h, EmptyView(h.root.kind), funds, elsewhere)
  {
    var v := EmptyView(h.root.kind);
    forall l ensures l in v.prices <==> Legal(h.root.kind, l) {
    }
    forall p <- funds ensures PurseBacks(h, funds, elsewhere, p) {
      assert LockSum(h.orders, h.root.key, 1, p) == LockSum(h.orders, h.root.key, 0, p) + LockAt(h.orders, h.root.key, 0, p);
    }
    assert CountOpen(h.orders, h.root.key, 1) == CountOpen(h.orders, h.root.key, 0);
  }
}
