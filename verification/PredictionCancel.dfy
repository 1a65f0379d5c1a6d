/**
 * `readPredictionCancellationAccounts`: read an order and its neighbours, re-check every link, and name the accounts
 * a cancellation needs. On a well-formed prediction book it succeeds for exactly the owner's open orders, and the
 * program accepts exactly what it returns.
 */
module PredictionCancel {
  import opened Base
  import opened Settlement
  import opened BookHeap
  import opened Removal
  import opened Abstraction

  predicate LevelFits(h: Heap, l: ListId, price: u64) {
    var k := LevelKey(h.root.key, l, price);
    && k in h.levels
    && var level := h.levels[k];
    level.book == h.root.key && level.list == l && level.price == price && level.count > 0 && level.total > 0
    && level.first.Some? && level.last.Some?
  }

  predicate QueueNeighbourFits(h: Heap, rk: Key, o: Order, address: Option<Key>, isPrevious: bool) {
    address.Some? ==>
      && address.value in h.orders
      && var n := h.orders[address.value];
      && address.value == OrderKey(h.root.key, n.id) && n.book == h.root.key && n.priceLevel == o.priceLevel
      && n.list == o.list && n.price == o.price && n.status.Open? && 0 < n.remaining <= n.quantity
      && if isPrevious then n.next == Some(rk) && n.id < o.id else n.previous == Some(rk) && n.id > o.id
  }

  predicate PriceNeighbourFits(h: Heap, o: Order, price: Option<u64>, isBetter: bool) {
    price.Some? ==>
      && LevelFits(h, o.list, price.value)
      && var n := h.levels[LevelKey(h.root.key, o.list, price.value)];
      if isBetter then n.worse == Some(o.price) && Precedes(o.list.side, price.value, o.price)
      else n.better == Some(o.price) && Precedes(o.list.side, o.price, price.value)
  }

  predicate BackingFits(o: Order) {
    0 < o.remaining <= o.quantity && o.locked == if o.list.side.Bid? then o.price * o.remaining else o.remaining
  }

  /** The level and the hints of the cancellation; None stands for a thrown error. */
  function ReadCancellation(h: Heap, owner: Pubkey, rk: Key): Option<(Key, Hints)> {
    if rk !in h.orders then None
    else
      var o := h.orders[rk];
      var lk := LevelKey(h.root.key, o.list, o.price);
      if o.owner != owner || o.book != h.root.key || rk != OrderKey(h.root.key, o.id) || !o.status.Open? || o.list.outcome.Spot?
         || o.priceLevel != lk || !LevelFits(h, o.list, o.price) then None
      else
        var level := h.levels[lk];
        if o.previous == Some(rk) || o.next == Some(rk) || (o.previous.Some? && o.next == o.previous)
           || (level.first == Some(rk)) != o.previous.None? || (level.last == Some(rk)) != o.next.None?
           || !QueueNeighbourFits(h, rk, o, o.previous, true) || !QueueNeighbourFits(h, rk, o, o.next, false) || !BackingFits(o) then None
        else if level.count == 1 then
          if o.previous.Some? || o.next.Some? || level.total != o.remaining
             || !PriceNeighbourFits(h, o, level.better, true) || !PriceNeighbourFits(h, o, level.worse, false) then None
          else Some((lk, Hints(None, None, LevelLink(h.root.key, o.list, level.better), LevelLink(h.root.key, o.list, level.worse),
                               Some(level.rentPayer))))
        else if (o.previous.None? && o.next.None?) || level.total <= o.remaining then None
        else Some((lk, Hints(o.previous, o.next, None, None, None)))
  }

  lemma BackedExactly(o: Order, price: nat)
    requires Backed(o.list.side, 0, price, o.remaining, o.locked) && price == o.price && 0 < o.remaining <= o.quantity
    ensures BackingFits(o)
  {
  }

  /** Removal checks that pass contain every check of the client's read. */
  lemma AcceptedIsReadable(h: Heap, v: View, rk: Key, lk: Key, hints: Hints)
    requires WellFormed(h, v) && RemoveChecks(h, rk, lk, hints) && BackingFits(h.orders[rk]) && !h.orders[rk].list.outcome.Spot?
    ensures ReadCancellation(h, h.orders[rk].owner, rk) == Some((lk, hints))
  {
    hide WellFormed, CoversRemaining, BackingFits;
    var o := h.orders[rk];
    var l := h.levels[lk];
    if l.count == 1 {
      assert hints.better == LevelLink(h.root.key, o.list, l.better) && hints.worse == LevelLink(h.root.key, o.list, l.worse);
    }
  }

  /** It succeeds for exactly the owner's open orders, and the program accepts exactly what it returns. */
  lemma CancellationReadExactly(h: Heap, v: View, owner: Pubkey, rk: Key)
    requires WellFormed(h, v) && h.root.kind.PredictionKind?
    ensures ReadCancellation(h, owner, rk).Some? <==>
      rk in h.orders && rk.book == h.root.key && h.orders[rk].status.Open? && h.orders[rk].owner == owner
    ensures var r := ReadCancellation(h, owner, rk);
      r.Some? ==>
        && r.value.0 == h.orders[rk].priceLevel && r.value.0 in h.levels && r.value.1 == ClientHints(h, rk)
        && RemoveChecks(h, rk, r.value.0, r.value.1)
  {
    if rk in h.orders && rk.book == h.root.key && h.orders[rk].status.Open? && h.orders[rk].owner == owner {
      OpenTerms(h, v, rk);
      PredictionScale(h, v);
      PredictionOrdersRemovable(h, v, rk);
      BackedExactly(h.orders[rk], h.orders[rk].price) by { OpenQuantity(h, v, rk); }
      OpenOutcome(h, v, rk);
      hide ReadCancellation, RemoveChecks, WellFormed, Backed, BackingFits;
      AcceptedIsReadable(h, v, rk, h.orders[rk].priceLevel, ClientHints(h, rk));
    } else {
      hide WellFormed, LevelFits, QueueNeighbourFits, PriceNeighbourFits, BackingFits;
    }
  }

  lemma OpenQuantity(h: Heap, v: View, rk: Key)
    requires WellFormed(h, v) && rk in h.orders && rk.book == h.root.key && h.orders[rk].status.Open?
    ensures 0 < h.orders[rk].remaining <= h.orders[rk].quantity
  {
    hide Linked, NoStray;
    var lk, i, p := StandingAt(h, v, rk);
  }

  lemma OpenOutcome(h: Heap, v: View, rk: Key)
    requires WellFormed(h, v) && h.root.kind.PredictionKind?
    requires rk in h.orders && rk.book == h.root.key && h.orders[rk].status.Open?
    ensures !h.orders[rk].list.outcome.Spot?
  {
    var lk, i, p := StandingAt(h, v, rk);
    assert Ladder(h, lk.list, v.prices[lk.list]);
  }
}
