/**
 * Resting a prediction order: the program's term and funding rules (`validate_resting_order`, `lock_resting_funds`)
 * and the client's advisory copy of them. With the place that the client's search finds, the two accept exactly the
 * same requests, and an accepted order keeps every invariant of the exchange.
 */
module PredictionResting {
  import opened Base
  import opened Settlement
  import opened BookHeap
  import opened Removal
  import opened Insertion
  import opened Ledger
  import opened Instructions
  import opened Promises
  import opened Walk
  import opened Placement

  /** `validate_resting_order`: the next id and open count, or None for a refused request. */
  function ValidateResting(open: bool, root: Root, id: u64, l: ListId, price: u64, quantity: u64): Option<(u64, u64)>
    requires Legal(root.kind, l)
  {
    if !open || quantity == 0 || price == 0 || price >= root.payout || root.tick == 0 || price % root.tick != 0 then None
    else if id == 0 || id != root.nextId then None
    else
      var other := Best(root, OtherSide(l));
      if other.Some? && !(if l.side.Bid? then price < other.value else price > other.value) then None
      else if root.nextId == U64_MAX || root.open == U64_MAX then None
      else Some((root.nextId + 1, root.open + 1))
  }

  /** `lock_resting_funds`: whole contracts need no scaling; None is a funds or overflow error. */
  function LockResting(funds: Funds, owner: Pubkey, l: ListId, price: u64, quantity: u64): Option<(Funds, u64)> {
    var p := PurseFor(owner, l);
    if p !in funds then None
    else
      var bucket := funds[p];
      if l.side.Bid? && price * quantity > U64_MAX then None
      else
        var amount := if l.side.Bid? then price * quantity else quantity;
        if bucket.free < amount || bucket.locked + amount > U64_MAX then None
        else Some((funds[p := Bucket(bucket.free - amount, bucket.locked + amount)], amount))
  }

  /** Locking moves a claim from free to locked in one bucket, conserves it, and backs the new order exactly. */
  lemma LockRestingConserves(funds: Funds, owner: Pubkey, l: ListId, price: u64, quantity: u64)
    requires LockResting(funds, owner, l, price, quantity).Some?
    ensures var (after, amount) := LockResting(funds, owner, l, price, quantity).value;
      && after.Keys == funds.Keys
      && after[PurseFor(owner, l)].locked == funds[PurseFor(owner, l)].locked + amount
      && (forall p :: Worth(after, p) == Worth(funds, p))
      && (forall p <- funds :: p != PurseFor(owner, l) ==> after[p] == funds[p])
      && Backed(l.side, 0, price, quantity, amount)
  {
    NotionalWhole(price, quantity);
  }

  /** A prediction order locks its whole price or its contracts, and is refused exactly when they are not free or do not fit. */
  lemma LockRestingExactly(funds: Funds, owner: Pubkey, l: ListId, price: u64, quantity: u64)
    ensures var p := if l.side.Bid? then Cash(owner) else Claim(owner, l.outcome);
      var amount := if l.side.Bid? then price * quantity else quantity;
      var r := LockResting(funds, owner, l, price, quantity);
      && (r.Some? <==> p in funds && amount <= funds[p].free && funds[p].locked + amount <= U64_MAX)
      && (r.Some? ==> r.value.1 == amount && Moves(funds, r.value.0, p, 0 - amount, amount) && OthersKept(funds, r.value.0, {p}))
  {
  }

  /** The resting rules: an open market, a price on the grid inside the payout and every opposing price, and the next id. */
  lemma RestingExactly(open: bool, h: Heap, v: View, id: u64, l: ListId, price: u64, quantity: u64)
    requires WellFormed(h, v) && l in v.prices
    ensures Legal(h.root.kind, l) && OtherSide(l) in v.prices
    ensures ValidateResting(open, h.root, id, l, price, quantity).Some? <==>
      && open && quantity > 0 && 0 < price < h.root.payout && h.root.tick > 0 && price % h.root.tick == 0
      && 0 < id == h.root.nextId < U64_MAX && h.root.open < U64_MAX
      && (forall p <- v.prices[OtherSide(l)] :: if l.side.Bid? then price < p else p < price)
    ensures ValidateResting(open, h.root, id, l, price, quantity).Some? ==>
      ValidateResting(open, h.root, id, l, price, quantity).value == (id + 1, h.root.open + 1)
  {
    hide WellFormed;
    CrossingExactly(h, v, l, price);
    FlatEmpty(h, v, OtherSide(l));
    SlotInjective(h.root.kind, l, OtherSide(l));
  }

  // ------------------------------------------------------------------ the client's copy

  predicate TailFits(root: Root, l: ListId, price: u64, quantity: nat, levelKey: Key, tailKey: Key, level: Level, tail: Order)
    requires Legal(root.kind, l)
  {
    && Best(root, l).Some?
    && var best := Best(root, l).value;
    && levelKey == LevelKey(root.key, l, price) && level.book == root.key && level.list == l && level.price == price
    && (best == price) == level.better.None? && NotBeforeBest(l.side, best, price)
    && level.count > 0 && level.first.Some? && level.last == Some(tailKey)
    && tailKey == OrderKey(root.key, tail.id) && tail.book == root.key && tail.priceLevel == levelKey && tail.list == l && tail.price == price
    && tail.status.Open? && 0 < tail.remaining <= tail.quantity && tail.next.None? && 0 < tail.id < root.nextId
    && (if level.count == 1 then level.first == Some(tailKey) && tail.previous.None? && level.total == tail.remaining
        else level.first != Some(tailKey) && tail.previous.Some? && tail.previous != Some(tailKey) && level.total >= tail.remaining)
    && level.count + 1 <= U64_MAX && level.total + quantity <= U64_MAX
  }

  /** `validatePredictionRestingOrder`: the amount to lock, or None for a thrown error. */
  function ClientAmount(open: bool, root: Root, funds: Funds, owner: Pubkey, l: ListId, price: int, quantity: int, target: PlacementTarget): Option<nat>
    requires Legal(root.kind, l)
  {
    if !open || quantity <= 0 || quantity > U64_MAX || price <= 0 || price > U64_MAX || price >= root.payout || root.tick == 0
       || price % root.tick != 0 || Cash(owner) !in funds || Claim(owner, l.outcome) !in funds then None
    else if !(match target
              case InsertBetween(better, worse) => NeighboursFit(root, l, price, better, worse)
              case AppendTo(levelKey, tailKey, level, tail) => TailFits(root, l, price, quantity, levelKey, tailKey, level, tail)
              case FirstOnSide => Best(root, l).None?) then None
    else
      var opposing := Best(root, OtherSide(l));
      if opposing.Some? && (if l.side.Bid? then price >= opposing.value else price <= opposing.value) then None
      else if root.nextId == 0 || root.nextId + 1 > U64_MAX || root.open + 1 > U64_MAX then None
      else
        var amount := if l.side.Bid? then price * quantity else quantity;
        var bucket := funds[PurseFor(owner, l)];
        if amount > U64_MAX || amount > bucket.free || bucket.locked + amount > U64_MAX then None
        else Some(amount)
  }

  /** The program's own rules, and the counters of an existing level. */
  ghost predicate ChainRests(open: bool, h: Heap, v: View, funds: Funds, owner: Pubkey, l: ListId, price: u64, quantity: u64)
    requires Legal(h.root.kind, l)
  {
    && ValidateResting(open, h.root, h.root.nextId, l, price, quantity).Some?
    && LockResting(funds, owner, l, price, quantity).Some?
    && var lk := LevelKey(h.root.key, l, price);
    (lk in v.queue ==> lk in h.levels && h.levels[lk].count < U64_MAX && h.levels[lk].total + quantity <= U64_MAX)
  }

  /** The place the search found passes every link check. */
  lemma FoundPlaceFits(h: Heap, v: View, l: ListId, price: u64, quantity: nat, bound: nat, target: PlacementTarget)
    requires WellFormed(h, v) && l in v.prices && FindsPlace(h, v, l, price, bound, Some(target))
    ensures Legal(h.root.kind, l) && Best(h.root, l) == Head(v.prices[l])
    ensures var lk := LevelKey(h.root.key, l, price);
      match target
      case InsertBetween(better, worse) => lk !in v.queue && NeighboursFit(h.root, l, price, better, worse)
      case AppendTo(levelKey, tailKey, level, tail) =>
        && lk in v.queue && lk in h.levels
        && (TailFits(h.root, l, price, quantity, levelKey, tailKey, level, tail) <==>
              h.levels[lk].count < U64_MAX && h.levels[lk].total + quantity <= U64_MAX)
      case FirstOnSide => lk !in v.queue && v.prices[l] == []
  {
    hide WellFormed, NeighboursFit;
    FlatEmpty(h, v, l);
    var lk := LevelKey(h.root.key, l, price);
    if lk in v.queue {
      TailOfLevel(h, v, lk);
    } else if v.prices[l] != [] {
      if price in v.prices[l] { ListLevelQueued(h, v, l, IndexOf(v.prices[l], price)); }
      GapFits(h, v, l, price);
    }
  }

  lemma ListLevelQueued(h: Heap, v: View, l: ListId, i: nat)
    requires WellFormed(h, v) && l in v.prices && i < |v.prices[l]|
    ensures LevelKey(h.root.key, l, v.prices[l][i]) in v.queue
  {
    RungChecks(h, v, l, i);
  }

  lemma TailOfLevel(h: Heap, v: View, lk: Key)
    requires WellFormed(h, v) && lk in v.queue && lk.LevelKey?
    ensures lk.list in v.prices && Legal(h.root.kind, lk.list) && lk.book == h.root.key && lk in h.levels && v.queue[lk] != []
    ensures var tail := OrderKey(h.root.key, v.queue[lk][|v.queue[lk]| - 1]);
      && tail in h.orders
      && forall quantity: nat :: TailFits(h.root, lk.list, lk.price, quantity, lk, tail, h.levels[lk], h.orders[tail])
           == (h.levels[lk].count < U64_MAX && h.levels[lk].total + quantity <= U64_MAX)
  {
    var q := v.queue[lk];
    assert OwnLevel(h, v, lk);
    LevelChecks(h, v, lk);
    QueueEnds(h, v, lk);
    var i := IndexOf(v.prices[lk.list], lk.price);
    LevelFits(h, v, lk.list, i) by { hide WellFormed; }
    PredictionTail(h, v, lk);
    hide WellFormed, Backed, OnGrid;
  }

  lemma PredictionTail(h: Heap, v: View, lk: Key)
    requires WellFormed(h, v) && lk in v.queue && v.queue[lk] != []
    ensures lk.LevelKey? && Node(h, lk, v.queue[lk], |v.queue[lk]| - 1) && lk in h.levels
    ensures OrderKey(h.root.key, v.queue[lk][|v.queue[lk]| - 1]) in h.orders
    ensures h.orders[OrderKey(h.root.key, v.queue[lk][|v.queue[lk]| - 1])].remaining <= h.levels[lk].total
    ensures |v.queue[lk]| == 1 ==> h.orders[OrderKey(h.root.key, v.queue[lk][|v.queue[lk]| - 1])].remaining == h.levels[lk].total
    ensures h.orders[OrderKey(h.root.key, v.queue[lk][|v.queue[lk]| - 1])].book == h.root.key
  {
    assert Queue(h, lk, v.queue[lk]) by { assert OwnLevel(h, v, lk); }
    assert Node(h, lk, v.queue[lk], |v.queue[lk]| - 1);
    SumDropAt(h.orders, h.root.key, v.queue[lk], |v.queue[lk]| - 1);
    assert |v.queue[lk]| == 1 ==> DropAt(v.queue[lk], 0) == [];
    hide Ladders, Queues, NoStray;
  }

  /** With the place its search found, the client accepts exactly what the program accepts, for the same amount. */
  lemma ClientAgreesWithChain(open: bool, h: Heap, v: View, funds: Funds, owner: Pubkey, l: ListId, price: u64, quantity: u64, bound: nat,
                              target: PlacementTarget)
    requires WellFormed(h, v) && l in v.prices && FindsPlace(h, v, l, price, bound, Some(target))
    requires Cash(owner) in funds && Claim(owner, l.outcome) in funds
    ensures Legal(h.root.kind, l)
    ensures ClientAmount(open, h.root, funds, owner, l, price, quantity, target).Some? <==> ChainRests(open, h, v, funds, owner, l, price, quantity)
    ensures ChainRests(open, h, v, funds, owner, l, price, quantity) ==>
      ClientAmount(open, h.root, funds, owner, l, price, quantity, target) == Some(LockResting(funds, owner, l, price, quantity).value.1)
  {
    hide WellFormed, NeighboursFit, TailFits, FindsPlace;
    FoundPlaceFits(h, v, l, price, quantity, bound, target);
    RootCounters(h, v);
    if target.AppendTo? {
      FoundTail(h, v, l, price, bound, target);
    }
  }

  lemma FoundTail(h: Heap, v: View, l: ListId, price: u64, bound: nat, target: PlacementTarget)
    requires l in v.prices && FindsPlace(h, v, l, price, bound, Some(target)) && target.AppendTo?
    ensures LevelKey(h.root.key, l, price) in v.queue
  {
  }

  lemma RootCounters(h: Heap, v: View)
    requires WellFormed(h, v)
    ensures h.root.nextId > 0 && h.root.tick > 0
  {
  }

  // ----------------------------------------------------------------- the effect

  /** The accounts after the place, append or insert handler. */
  ghost function Rested(h: Heap, v: View, owner: Pubkey, l: ListId, price: u64, quantity: u64, amount: u64): Heap
    requires l in v.prices && Legal(h.root.kind, l) && h.root.nextId < U64_MAX && h.root.open < U64_MAX
  {
    var lk := LevelKey(h.root.key, l, price);
    var ps := v.prices[l];
    var g := GapOf(l.side, ps, price);
    if lk in v.queue then
      if lk in h.levels && h.levels[lk].last.Some? && h.levels[lk].last.value in h.orders && h.levels[lk].count < U64_MAX
         && h.levels[lk].total + quantity <= U64_MAX
      then Appended(h, lk, NewOrder(h.root, owner, l, price, quantity, amount, h.levels[lk].last)) else h
    else
      var no := NewOrder(h.root, owner, l, price, quantity, amount, None);
      var new_ := NewLevel(no, PriceBefore(ps, g), PriceAfter(ps, g), owner);
      if (new_.better.Some? ==> LevelKey(h.root.key, l, new_.better.value) in h.levels)
         && (new_.worse.Some? ==> LevelKey(h.root.key, l, new_.worse.value) in h.levels)
      then Inserted(h, no, new_) else h
  }

  /** An accepted prediction order keeps the book well formed, every lock backed, and bids below asks. */
  lemma RestingKeepsConsistent(open: bool, h: Heap, v: View, funds: Funds, elsewhere: map<Purse, nat>, owner: Pubkey, l: ListId, price: u64,
                               quantity: u64)
    requires Consistent(h, v, funds, elsewhere) && h.root.kind.PredictionKind? && l in v.prices && Legal(h.root.kind, l)
    requires ChainRests(open, h, v, funds, owner, l, price, quantity)
    ensures h.root.nextId < U64_MAX && h.root.open < U64_MAX
    ensures var (after, amount) := LockResting(funds, owner, l, price, quantity).value;
      Consistent(Rested(h, v, owner, l, price, quantity, amount), Placed(v, LevelKey(h.root.key, l, price), h.root.nextId), after, elsewhere)
  {
    hide Consistent, WellFormed, Backed, Appended, Inserted, OnGrid;
    ConsistentIsWellFormed(h, v, funds, elsewhere);
    var (after, amount) := LockResting(funds, owner, l, price, quantity).value;
    var lk := LevelKey(h.root.key, l, price);
    LockRestingConserves(funds, owner, l, price, quantity);
    PredictionTerms(open, h, v, l, price, quantity);
    NextIdUnused(h, v);
    if lk in v.queue {
      TailOfLevel(h, v, lk);
      LevelLast(h, v, lk);
      AppendKeepsConsistent(h, v, funds, elsewhere, lk, NewOrder(h.root, owner, l, price, quantity, amount, h.levels[lk].last));
    } else {
      GapReady(h, v, l, price);
      var g := GapOf(l.side, v.prices[l], price);
      var no := NewOrder(h.root, owner, l, price, quantity, amount, None);
      InsertKeepsConsistent(h, v, funds, elsewhere, l, g, no, NewLevel(no, PriceBefore(v.prices[l], g), PriceAfter(v.prices[l], g), owner));
    }
  }

  lemma LevelLast(h: Heap, v: View, lk: Key)
    requires WellFormed(h, v) && lk in v.queue
    ensures v.queue[lk] != [] && lk in h.levels && h.levels[lk].last == Some(OrderKey(h.root.key, v.queue[lk][|v.queue[lk]| - 1]))
  {
    QueueEnds(h, v, lk);
  }

  lemma PredictionTerms(open: bool, h: Heap, v: View, l: ListId, price: u64, quantity: u64)
    requires WellFormed(h, v) && h.root.kind.PredictionKind? && Legal(h.root.kind, l)
    requires ValidateResting(open, h.root, h.root.nextId, l, price, quantity).Some?
    ensures h.root.decimals == 0 && OnGrid(h.root, price) && quantity > 0 && !WouldCross(h.root, l, price)
    ensures h.root.nextId < U64_MAX && h.root.open < U64_MAX
  {
    assert SoundRoot(h.root) by { hide Ladders, Queues, NoStray; }
    hide WellFormed;
    SlotInjective(h.root.kind, l, OtherSide(l));
  }

  lemma GapReady(h: Heap, v: View, l: ListId, price: u64)
    requires WellFormed(h, v) && l in v.prices && LevelKey(h.root.key, l, price) !in v.queue
    ensures var ps := v.prices[l];
      var g := GapOf(l.side, ps, price);
      && IsGap(l.side, ps, price, g) && Ladder(h, l, ps) && LevelKey(h.root.key, l, price) !in h.levels
      && (g > 0 ==> Rung(h, l, ps, g - 1) && LevelKey(h.root.key, l, ps[g - 1]) in h.levels)
      && (g < |ps| ==> Rung(h, l, ps, g) && LevelKey(h.root.key, l, ps[g]) in h.levels)
  {
    var ps := v.prices[l];
    assert Ladder(h, l, ps) by { assert Ladders(h, v.prices); }
    LevelExistsInQueue(h, v, LevelKey(h.root.key, l, price)) by { hide Linked, NoStray; }
    if price in ps { RungChecks(h, v, l, IndexOf(ps, price)); }
    hide WellFormed;
    GapExists(l.side, ps, price);
    var g := GapOf(l.side, ps, price);
    assert g > 0 ==> Rung(h, l, ps, g - 1);
    assert g < |ps| ==> Rung(h, l, ps, g);
  }
}
