/**
 * The shared-wallet exchange as the program runs it: account maps that the place, cancel and match instructions
 * rewrite in place. Every instruction either changes nothing or makes exactly the promised change to the book
 * (`view`) and to the ledger (`funds`), and keeps every invariant whatever arguments it receives.
 */
module Exchange {
  import opened Base
  import opened Settlement
  import opened BookHeap
  import opened Removal
  import opened Updates
  import opened Insertion
  import opened Ledger
  import opened Instructions
  import opened Promises

  class Exchange {
    var root: Root
    var orders: map<Key, Order>
    var levels: map<Key, Level>
    var funds: Funds
    /** The book these accounts represent, and what each purse has locked in other books. */
    ghost var view: View
    ghost var elsewhere: map<Purse, nat>

    function H(): Heap
      reads this
    {
      Heap(root, orders, levels)
    }

    ghost function Now(): Scene
      reads this
    {
      Scene(H(), view, funds)
    }

    ghost predicate Valid()
      reads this
    {
      Consistent(H(), view, funds, elsewhere)
    }

    /** `handle_initialize_shared_book`, for wallets that hold `funds` and lock only in other books. */
    constructor (key: Pubkey, kind: Kind, decimals: nat, tick: u64, lot: u64, payout: u64, funds: Funds)
      requires tick > 0 && lot > 0
      requires kind.PredictionKind? ==> decimals == 0 && lot == 1
      ensures Valid()
      ensures this.funds == funds && orders == map[] && levels == map[]
      ensures forall l <- view.prices :: view.prices[l] == []
      ensures view.queue == map[]
    {
      root := Root(key, kind, decimals, tick, lot, payout, [None, None, None, None], 1, 0, 0);
      orders := map[];
      levels := map[];
      this.funds := funds;
      view := EmptyView(kind);
      elsewhere := map p | p in funds :: funds[p].locked;
      new;
      EmptyBookConsistent(H(), funds, elsewhere);
    }

    /** The body of `remove_order`, after the caller has decided to remove `rk`. */
    method RemoveOrder(rk: Key, lk: Key, hints: Hints) returns (ok: bool)
      requires WellFormed(H(), view)
      modifies this`root, this`orders, this`levels
      ensures ok <==> old(RemoveChecks(H(), rk, lk, hints))
      ensures !ok ==> H() == old(H())
      ensures ok ==> old(Detachable(H(), rk)) && H() == old(Detached(H(), rk)) && root.fees == old(root.fees)
    {
      hide WellFormed, RemoveChecks, LocksPositive, OrderLink, Best, OtherSlot, OrderCheck, LevelCheck, Precedes;
      if !RemoveChecks(H(), rk, lk, hints) { return false; }
      RemovableOrder(H(), view, rk, lk, hints);
      var o := orders[rk];
      var l := RepairQueue(o, levels[lk], hints);
      if l.count == 0 {
        RepairPrices(o, lk, levels[lk], hints);
      } else {
        levels := levels[lk := l];
      }
      root := root.(open := root.open - 1);
      return true;
    }

    /** The queue links around a removed order, and what its level becomes. */
    method RepairQueue(o: Order, level: Level, hints: Hints) returns (l: Level)
      requires hints.previous == o.previous && hints.next == o.next && level.count >= 1 && o.remaining <= level.total
      requires (o.previous.Some? ==> o.previous.value in orders) && (o.next.Some? ==> o.next.value in orders)
      modifies this`orders
      ensures orders == OrdersDetached(old(orders), o) && l == LevelDetached(level, o)
    {
      l := level;
      var count := l.count - 1;
      if hints.previous.Some? {
        orders := orders[hints.previous.value := orders[hints.previous.value].(next := o.next)];
      } else {
        l := l.(first := o.next);
      }
      if hints.next.Some? {
        orders := orders[hints.next.value := orders[hints.next.value].(previous := o.previous)];
      } else {
        l := l.(last := o.previous);
      }
      l := l.(count := count, total := l.total - o.remaining);
    }

    /** The price links around an emptied level, and its end. */
    method RepairPrices(o: Order, lk: Key, l: Level, hints: Hints)
      requires Legal(root.kind, l.list) && o.list == l.list && lk == LevelKey(root.key, l.list, l.price)
      requires hints.better == LevelLink(root.key, l.list, l.better) && hints.worse == LevelLink(root.key, l.list, l.worse)
      requires (hints.better.Some? ==> hints.better.value in levels) && (hints.worse.Some? ==> hints.worse.value in levels)
      modifies this`root, this`levels
      ensures levels == LevelsUnlinked(old(levels), old(root).key, l) && root == BestUnlinked(old(root), l)
    {
      if hints.better.Some? {
        levels := levels[hints.better.value := levels[hints.better.value].(worse := l.worse)];
      } else {
        root := root.(best := root.best[Slot(root.kind, o.list).value := l.worse]);
      }
      if hints.worse.Some? {
        levels := levels[hints.worse.value := levels[hints.worse.value].(better := l.better)];
      }
      levels := levels - {lk};
    }

    /**
     * `handle_match_shared_order`: one fill of the best FIFO maker. Failure anywhere rolls the instruction back.
     */
    method MatchOrder(tradingOpen: bool, taker: Pubkey, outcome: Outcome, takerSide: Side, limit: u64, quantity: u64, bps: nat,
                      rk: Key, lk: Key, hints: Hints)
      returns (ok: bool)
      requires Valid()
      requires hints.previous.None? && hints.better.None?
      modifies this
      ensures Valid() && elsewhere == old(elsewhere)
      ensures ok <==> tradingOpen && old(MatchAccepted(H(), view, funds, taker, outcome, takerSide, limit, quantity, bps, rk, lk, hints))
      ensures ok <==> tradingOpen && old(MatchPossible(H(), view, funds, taker, outcome, takerSide, limit, quantity, bps, rk, lk, hints))
      ensures ok ==> Matched(old(H()), H(), old(funds), funds, taker, outcome, takerSide, quantity, bps, rk)
      ensures !ok ==> H() == old(H()) && funds == old(funds) && view == old(view)
      ensures ok ==> H() == old(MatchedHeap(H(), rk, MatchPlan(H(), takerSide, limit, quantity, rk), bps))
      ensures ok ==> view == old(MatchedView(view, rk, lk, MatchPlan(H(), takerSide, limit, quantity, rk)))
      ensures ok ==> Some(funds) == old(MatchedFunds(H(), funds, taker, takerSide, rk, MatchPlan(H(), takerSide, limit, quantity, rk), bps))
    {
      hide Consistent, WellFormed, MatchAccepted, MatchGate, RemoveChecks, CalculateSettlement, SettleFunds,
        Detachable, LocksPositive, Notional, Backed;
      hide MatchPossible, Matched;
      MatchExact(H(), view, funds, elsewhere, taker, outcome, takerSide, limit, quantity, bps, rk, lk, hints);
      MatchPromised(H(), view, funds, elsewhere, taker, outcome, takerSide, limit, quantity, bps, rk, lk, hints);
      ConsistentIsWellFormed(H(), view, funds, elsewhere);
      if !tradingOpen { return false; }
      if !MatchGate(H(), taker, outcome, takerSide, limit, quantity, rk, lk) { return false; }
      GateFacts(H(), view, taker, outcome, takerSide, limit, quantity, rk, lk);
      var o := orders[rk];
      var settlement := CalculateSettlement(takerSide, limit, quantity, o.list.side, o.price, o.remaining, o.locked, root.decimals);
      var fee := TakerFee(settlement, bps);
      if settlement.Err? || fee.None? || root.fees + fee.value > U64_MAX { return false; }
      var plan := settlement.value;
      if plan.fill.base > o.remaining || plan.debit > o.locked || plan.fill.base > levels[lk].total
         || (!plan.makerFull && !(hints.next.None? && hints.worse.None? && hints.recipient.None?)) { return false; }
      var trade := Trade(taker, o.owner, outcome, takerSide, plan.fill.base, plan.fill.quote, plan.debit, plan.refund, fee.value);
      var settled := SettleFunds(funds, trade);
      if settled.None? { return false; }
      HeadSettlement(H(), takerSide, limit, quantity, rk);
      ok := ApplyFill(rk, lk, settlement, bps, hints);
      if !ok { return false; }
      MatchKeepsConsistent(old(H()), view, funds, elsewhere, taker, outcome, takerSide, limit, quantity, bps, rk, lk, hints);
      funds := settled.value;
      view := MatchedView(view, rk, lk, settlement);
      return true;
    }

    /** The book writes of `handle_match_shared_order`: removal on a complete fill, otherwise a smaller head. */
    method ApplyFill(rk: Key, lk: Key, settlement: Result<Plan>, bps: nat, hints: Hints) returns (ok: bool)
      requires WellFormed(H(), view)
      requires settlement.Ok? && TakerFee(settlement, bps).Some? && root.fees + TakerFee(settlement, bps).value <= U64_MAX
      requires rk in orders && lk in levels && orders[rk].priceLevel == lk
      requires settlement.value.fill.base <= orders[rk].remaining && settlement.value.debit <= orders[rk].locked
      requires if settlement.value.makerFull
        then settlement.value.fill.base == orders[rk].remaining && settlement.value.debit == orders[rk].locked
        else Fillable(H(), rk, settlement.value.fill.base, settlement.value.debit)
      modifies this`root, this`orders, this`levels
      ensures ok <==> settlement.value.makerFull ==> old(RemoveChecks(H(), rk, lk, hints))
      ensures !ok ==> H() == old(H())
      ensures ok ==> H() == old(MatchedHeap(H(), rk, settlement, bps))
    {
      hide WellFormed, RemoveChecks, TakerFee, Detached;
      var plan := settlement.value;
      var o := orders[rk];
      if plan.makerFull {
        ok := RemoveOrder(rk, lk, hints);
        if !ok { return false; }
      } else {
        levels := levels[lk := levels[lk].(total := levels[lk].total - plan.fill.base)];
      }
      o := o.(remaining := o.remaining - plan.fill.base, locked := o.locked - plan.debit);
      if plan.makerFull {
        o := o.(status := Filled, previous := None, next := None);
      }
      orders := orders[rk := o];
      root := root.(fees := root.fees + TakerFee(settlement, bps).value);
      return true;
    }

    /** `handle_cancel_shared_order`. */
    method CancelOrder(owner: Pubkey, rk: Key, lk: Key, hints: Hints) returns (ok: bool)
      requires Valid()
      modifies this
      ensures Valid() && elsewhere == old(elsewhere)
      ensures ok <==> old(CancelAccepted(H(), funds, owner, rk, lk, hints))
      ensures ok <==> old(CancelPossible(H(), funds, owner, rk, lk, hints))
      ensures ok ==> Released(old(H()), H(), old(funds), funds, owner, rk)
      ensures !ok ==> H() == old(H()) && funds == old(funds) && view == old(view)
      ensures ok ==> rk.OrderKey? && old(Detachable(H(), rk) && Stands(view, lk, rk.id))
      ensures ok ==> H() == old(Retired(H(), rk, CancelledOrder(orders[rk])))
      ensures ok ==> view == old(Deleted(view, lk, rk.id))
      ensures ok ==> Some(funds) == old(UnlockFunds(funds, PurseFor(owner, orders[rk].list), orders[rk].locked))
    {
      hide Consistent, WellFormed, RemoveChecks, LocksPositive, Detachable, Stands, OrderCheck;
      hide CancelPossible, Released;
      CancelExact(H(), view, funds, elsewhere, owner, rk, lk, hints);
      CancelPromised(H(), view, funds, elsewhere, owner, rk, lk, hints);
      if rk !in orders || orders[rk].owner != owner { return false; }
      var o := orders[rk];
      if Cash(owner) !in funds || Claim(owner, o.list.outcome) !in funds { return false; }
      if !OrderCheck(H(), rk) { return false; }
      var amount := o.locked;
      var p := PurseFor(owner, o.list);
      var unlocked := UnlockFunds(funds, p, amount);
      if unlocked.None? { return false; }
      ConsistentIsWellFormed(H(), view, funds, elsewhere);
      ok := RemoveOrder(rk, lk, hints);
      if !ok { return false; }
      CancelKeepsConsistent(old(H()), view, funds, elsewhere, rk);
      funds := unlocked.value;
      orders := orders[rk := o.(status := Canceled, locked := 0, previous := None, next := None)];
      view := Deleted(view, lk, rk.id);
    }

    /** The new-level writes of `handle_place_shared_order`. */
    method HookLevel(l: ListId, price: u64, quantity: u64, payer: Pubkey, hints: PlaceHints)
      requires Legal(root.kind, l) && LevelKey(root.key, l, price) !in levels
      requires hints.better.Some? ==> GapLevel(H(), l, hints.better.value)
      requires hints.worse.Some? ==> GapLevel(H(), l, hints.worse.value)
      modifies this`root, this`levels
      ensures var key := OrderKey(old(root).key, old(root).nextId);
        var new_ := Level(old(root).key, l, price, old(PriceOf(H(), hints.better)), old(PriceOf(H(), hints.worse)),
                          Some(key), Some(key), quantity, 1, payer);
        && root == old(BestHooked(root, new_))
        && levels == old(LevelsHooked(levels, root.key, new_))
    {
      var key := OrderKey(root.key, root.nextId);
      var better, worse := PriceOf(H(), hints.better), PriceOf(H(), hints.worse);
      levels := levels[LevelKey(root.key, l, price) := Level(root.key, l, price, better, worse, Some(key), Some(key), quantity, 1, payer)];
      if hints.better.Some? {
        levels := levels[hints.better.value := levels[hints.better.value].(worse := Some(price))];
      } else {
        root := root.(best := root.best[Slot(root.kind, l).value := Some(price)]);
      }
      if hints.worse.Some? {
        levels := levels[hints.worse.value := levels[hints.worse.value].(better := Some(price))];
      }
    }

    /** The account writes of `handle_place_shared_order`, after every check has passed. */
    method SpliceOrder(owner: Pubkey, l: ListId, price: u64, quantity: u64, amount: u64, hints: PlaceHints)
      requires Placeable(H(), owner, l, price, quantity, hints)
      requires OrderTerms(root, l, price, quantity) == Some(amount)
      modifies this`root, this`orders, this`levels
      ensures H() == old(PlacedHeap(H(), owner, l, price, quantity, hints))
    {
      hide OrderTerms, LevelsHooked;
      var lk := LevelKey(root.key, l, price);
      var key := OrderKey(root.key, root.nextId);
      if lk !in levels {
        HookLevel(l, price, quantity, owner, hints);
      } else {
        orders := orders[hints.tail.value := orders[hints.tail.value].(next := Some(key))];
        levels := levels[lk := levels[lk].(last := Some(key), count := levels[lk].count + 1, total := levels[lk].total + quantity)];
      }
      orders := orders[key := Order(root.key, owner, root.nextId, l, price, lk, hints.tail, None, quantity, quantity, amount, Open)];
      root := root.(nextId := root.nextId + 1, open := root.open + 1);
    }

    /** `handle_place_shared_order`; `tradingOpen` is the outcome of `trading_open`. */
    method PlaceOrder(tradingOpen: bool, owner: Pubkey, l: ListId, price: u64, quantity: u64, id: u64, hints: PlaceHints)
      returns (ok: bool)
      requires Valid()
      modifies this
      ensures Valid() && elsewhere == old(elsewhere)
      ensures ok <==> tradingOpen && old(PlaceAccepted(H(), view, funds, owner, l, price, quantity, id, hints))
      ensures ok <==> tradingOpen && old(PlacePossible(H(), view, funds, owner, l, price, quantity, id, hints))
      ensures ok ==> Posted(old(H()), H(), old(funds), funds, owner, l, price, quantity, id)
      ensures !ok ==> H() == old(H()) && funds == old(funds) && view == old(view)
      ensures ok ==> old(l in view.prices) && view == old(Placed(view, LevelKey(root.key, l, price), id))
      ensures ok ==> Some(funds) == old(PlacedFunds(root, funds, owner, l, price, quantity))
      ensures ok ==> old(Placeable(H(), owner, l, price, quantity, hints)) && H() == old(PlacedHeap(H(), owner, l, price, quantity, hints))
    {
      hide Consistent, WellFormed, AppendChecks, InsertChecks, PlaceAccepted, OnGrid, QuoteAmount, OrderTerms, WouldCross;
      hide PlacePossible, Posted;
      PlaceExact(H(), view, funds, elsewhere, owner, l, price, quantity, id, hints);
      PlacePromised(H(), view, funds, elsewhere, owner, l, price, quantity, id, hints);
      if !tradingOpen { return false; }
      if Cash(owner) !in funds || Claim(owner, l.outcome) !in funds { return false; }
      var terms := OrderTerms(root, l, price, quantity);
      if terms.None? { return false; }
      TermsBackOrder(root, l, price, quantity);
      if id == 0 || id != root.nextId { return false; }
      if WouldCross(root, l, price) { return false; }
      if id == U64_MAX || root.open == U64_MAX { return false; }
      var lk := LevelKey(root.key, l, price);
      var isNew := lk !in levels;
      if isNew {
        if !InsertChecks(H(), l, price, hints) { return false; }
      } else {
        if !AppendChecks(H(), lk, quantity, hints) { return false; }
      }
      var locked := LockFunds(funds, PurseFor(owner, l), terms.value);
      if locked.None? { return false; }
      PlaceKeepsConsistent(H(), view, funds, elsewhere, owner, l, price, quantity, id, hints);
      PlacedFacts(H(), view, funds, elsewhere, l);
      SpliceOrder(owner, l, price, quantity, terms.value, hints);
      funds := locked.value;
      view := Placed(view, lk, id);
      return true;
    }

    /** One instruction of a transaction; a rejected one leaves everything as it was. */
    method Execute(ix: Instruction, ghost n: nat) returns (ok: bool)
      requires Valid() && OwnersBelow(orders, n) && ix.trader < n
      modifies this
      ensures Performed(ix, old(Now()), Now(), ok)
      ensures !ok ==> Now() == old(Now())
      ensures Valid() && OwnersBelow(orders, n) && elsewhere == old(elsewhere)
      ensures SameBook(root, old(root)) && funds.Keys == old(funds.Keys)
      ensures TotalWorth(funds, None, n) + root.fees == old(TotalWorth(funds, None, n) + root.fees)
      ensures forall o :: TotalWorth(funds, Some(o), n) == old(TotalWorth(funds, Some(o), n))
    {
      hide Consistent, LocksPositive, PlaceAccepted, MatchAccepted, MatchedHeap, Retired, PlacedHeap, MatchedFunds, Detachable, Placeable,
        LockFunds, UnlockFunds, OrderTerms, MatchPlan, MatchedView, PlacePossible, CancelPossible, MatchPossible, Posted, Released, Stands;
      match ix {
        case Place(owner, open, l, price, quantity, id, hints) =>
          ok := PlaceOrder(open, owner, l, price, quantity, id, hints);
          if ok { PlacementConserves(old(H()), old(funds), owner, l, price, quantity, hints, n); }
          assert Performed(ix, old(Now()), Now(), ok);
        case Cancel(owner, rk, lk, hints) =>
          ok := CancelOrder(owner, rk, lk, hints);
          if ok { CancellationConserves(old(H()), old(funds), rk, PurseFor(owner, old(orders)[rk].list), n); }
          assert Performed(ix, old(Now()), Now(), ok);
        case Match(taker, open, outcome, side, limit, quantity, bps, rk, lk, next, worse, recipient) =>
          ok := MatchOrder(open, taker, outcome, side, limit, quantity, bps, rk, lk, Hints(None, next, None, worse, recipient));
          if ok {
            MatchedViewIs(old(H()), old(view), old(funds), old(elsewhere), taker, outcome, side, limit, quantity, bps, rk, lk,
                          Hints(None, next, None, worse, recipient));
            MatchConserves(old(H()), old(view), old(funds), old(elsewhere), taker, outcome, side, limit, quantity, bps, rk, lk,
                           Hints(None, next, None, worse, recipient), n);
          }
      }
    }

    /**
     * Any run of placements, cancellations and matches, by anyone, with any arguments: every invariant holds at the
     * end, traders' cash plus accrued fees is what it was, and so is every outcome's contract total. Each instruction is
     * carried out or refused in turn, on what the ones before it left.
     */
    method Run(ixs: seq<Instruction>, ghost n: nat) returns (results: seq<bool>, ghost scenes: seq<Scene>)
      requires Valid() && OwnersBelow(orders, n)
      requires forall ix <- ixs :: ix.trader < n
      modifies this
      ensures Carried(ixs, scenes, results, |ixs|) && |scenes| == |ixs| + 1 && scenes[0] == old(Now()) && scenes[|ixs|] == Now()
      ensures Valid() && OwnersBelow(orders, n) && elsewhere == old(elsewhere)
      ensures SameBook(root, old(root)) && funds.Keys == old(funds.Keys)
      ensures TotalWorth(funds, None, n) + root.fees == old(TotalWorth(funds, None, n) + root.fees)
      ensures forall o :: TotalWorth(funds, Some(o), n) == old(TotalWorth(funds, Some(o), n))
    {
      results, scenes := [], [Now()];
      for i := 0 to |ixs|
        invariant Carried(ixs, scenes, results, i) && |scenes| == i + 1 && scenes[0] == old(Now()) && scenes[i] == Now()
        invariant Valid() && OwnersBelow(orders, n) && elsewhere == old(elsewhere)
        invariant SameBook(root, old(root)) && funds.Keys == old(funds.Keys)
        invariant TotalWorth(funds, None, n) + root.fees == old(TotalWorth(funds, None, n) + root.fees)
        invariant forall o :: TotalWorth(funds, Some(o), n) == old(TotalWorth(funds, Some(o), n))
      {
        hide Consistent, Performed, Carried;
        assert ixs[i] in ixs;
        var ok := Execute(ixs[i], n);
        CarriedStep(ixs, scenes, results, i, Now(), ok);
        results, scenes := results + [ok], scenes + [Now()];
      }
    }
  }
}
