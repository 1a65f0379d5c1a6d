/**
 * Resting a new order: FIFO append behind the tail of an existing price, or a sorted splice of a new price level.
 * The chain checks only the supplied neighbours; on a well-formed heap they accept exactly the unique place.
 */
module Insertion {
  import opened Base
  import opened Settlement
  import opened BookHeap
  import opened Removal

  datatype PlaceHints = PlaceHints(tail: Option<Key>, better: Option<Key>, worse: Option<Key>)

  // ------------------------------------------------------------------ the gap

  /** Number of leading prices strictly better than `price`. */
  function GapOf(side: Side, ps: seq<u64>, price: nat): (g: nat)
    ensures g <= |ps|
  {
    if ps == [] || !Precedes(side, ps[0], price) then 0 else 1 + GapOf(side, ps[1..], price)
  }

  ghost predicate IsGap(side: Side, ps: seq<u64>, price: nat, g: nat) {
    && g <= |ps|
    && (g > 0 ==> Precedes(side, ps[g - 1], price))
    && (g < |ps| ==> Precedes(side, price, ps[g]))
  }

  lemma {:induction false} GapIsUnique(side: Side, ps: seq<u64>, price: nat, g: nat)
    requires Ranked(side, ps)
    requires IsGap(side, ps, price, g)
    ensures g == GapOf(side, ps, price) && price !in ps
  {
    if g > 0 {
      assert Precedes(side, ps[0], price);
      assert Ranked(side, ps[1..]);
      GapIsUnique(side, ps[1..], price, g - 1);
    }
  }

  lemma {:induction false} GapExists(side: Side, ps: seq<u64>, price: nat)
    requires Ranked(side, ps) && price !in ps
    ensures IsGap(side, ps, price, GapOf(side, ps, price))
  {
    if ps != [] && Precedes(side, ps[0], price) {
      assert Ranked(side, ps[1..]);
      GapExists(side, ps[1..], price);
    }
  }

  lemma InsertKeepsRanked(side: Side, ps: seq<u64>, price: u64, g: nat)
    requires Ranked(side, ps) && IsGap(side, ps, price, g)
    ensures Ranked(side, InsertAt(ps, g, price))
  {
  }

  function PriceBefore(ps: seq<u64>, g: nat): Option<u64>
    requires g <= |ps|
  {
    if g == 0 then None else Some(ps[g - 1])
  }

  function PriceAfter(ps: seq<u64>, g: nat): Option<u64>
    requires g <= |ps|
  {
    if g == |ps| then None else Some(ps[g])
  }

  // ------------------------------------------------------------------ the checks

  /** The existing-level branch of `handle_place_shared_order`. */
  predicate AppendChecks(h: Heap, lk: Key, quantity: u64, hints: PlaceHints) {
    && LevelCheck(h, lk)
    && var l := h.levels[lk];
    && hints.better.None? && hints.worse.None?
    && HeadCheck(h.root, l)
    && hints.tail.Some?
    && OrderCheck(h, hints.tail.value)
    && var t := h.orders[hints.tail.value];
    && l.last == hints.tail
    && t.priceLevel == lk && t.list == l.list && t.price == l.price && t.next.None?
    && (if l.count == 1
        then l.first == hints.tail && t.previous.None? && l.total == t.remaining
        else l.first != hints.tail && t.previous.Some? && l.total > t.remaining)
    && l.count + 1 <= U64_MAX
    && l.total + quantity <= U64_MAX
  }

  predicate GapNeighbour(h: Heap, l: ListId, k: Option<Key>) {
    k.Some? ==> LevelCheck(h, k.value) && h.levels[k.value].list == l
  }

  function PriceOf(h: Heap, k: Option<Key>): Option<u64>
    requires k.Some? ==> k.value in h.levels
  {
    if k.None? then None else Some(h.levels[k.value].price)
  }

  /** The new-level branch of `handle_place_shared_order`. */
  predicate InsertChecks(h: Heap, l: ListId, price: u64, hints: PlaceHints)
    requires Legal(h.root.kind, l)
  {
    && hints.tail.None?
    && GapNeighbour(h, l, hints.better)
    && GapNeighbour(h, l, hints.worse)
    && match Best(h.root, l)
       case None => hints.better.None? && hints.worse.None?
       case Some(best) =>
         && (if hints.better.Some? then
               var b := h.levels[hints.better.value];
               && Precedes(l.side, b.price, price) && NotBeforeBest(l.side, best, b.price)
               && b.worse == PriceOf(h, hints.worse)
               && b.better.None? == (b.price == best)
             else
               && hints.worse.Some?
               && h.levels[hints.worse.value].price == best
               && h.levels[hints.worse.value].better.None?)
         && (hints.worse.Some? ==>
               var w := h.levels[hints.worse.value];
               w.better == PriceOf(h, hints.better) && Precedes(l.side, price, w.price))
  }

  // ------------------------------------------------------- exactness of the checks

  /** What a client reads off the tail of an existing level. */
  function AppendHints(h: Heap, lk: Key): PlaceHints
    requires lk in h.levels
  {
    PlaceHints(h.levels[lk].last, None, None)
  }

  function GapHints(book: Pubkey, l: ListId, ps: seq<u64>, price: nat): PlaceHints {
    var g := GapOf(l.side, ps, price);
    PlaceHints(None, LevelLink(book, l, PriceBefore(ps, g)), LevelLink(book, l, PriceAfter(ps, g)))
  }

  lemma AppendAcceptsExactlyTail(h: Heap, v: View, lk: Key, quantity: u64, hints: PlaceHints)
    requires WellFormed(h, v) && lk in h.levels && lk.book == h.root.key
    ensures AppendChecks(h, lk, quantity, hints) <==>
      && hints == AppendHints(h, lk)
      && hints.tail.Some? && hints.tail.value in h.orders && h.orders[hints.tail.value].locked > 0
      && h.levels[lk].count + 1 <= U64_MAX && h.levels[lk].total + quantity <= U64_MAX
  {
    assert lk in v.queue;
    var q := v.queue[lk];
    QueueEnds(h, v, lk);
    LevelChecks(h, v, lk);
    var p := IndexOf(v.prices[lk.list], lk.price) by { assert OwnLevel(h, v, lk); }
    hide WellFormed, Linked, NoStray;
    var i := |q| - 1;
    NodeChecks(h, v, lk, i);
    LadderCheck(h, v, lk, p);
    TotalExceeds(h, v, lk, i);
  }

  /** On a well-formed heap the new-level branch accepts a price exactly with its two adjacent levels. */
  lemma InsertAcceptsExactlyGap(h: Heap, v: View, l: ListId, price: u64, hints: PlaceHints)
    requires WellFormed(h, v) && Legal(h.root.kind, l) && l in v.prices
    requires LevelKey(h.root.key, l, price) !in h.levels
    ensures price !in v.prices[l]
    ensures InsertChecks(h, l, price, hints) <==> hints == GapHints(h.root.key, l, v.prices[l], price)
  {
    var ps := v.prices[l];
    assert Ladder(h, l, ps);
    if price in ps {
      RungChecks(h, v, l, IndexOf(ps, price));
      assert false;
    }
    GapExists(l.side, ps, price);
    var g := GapOf(l.side, ps, price);
    if InsertChecks(h, l, price, hints) {
      AcceptedIsGap(h, v, l, price, hints);
    }
    if hints == GapHints(h.root.key, l, ps, price) {
      hide WellFormed, Ladder;
      GapIsAccepted(h, v, l, price, g);
    }
  }

  lemma NeighbourAt(h: Heap, v: View, l: ListId, k: Key) returns (p: nat)
    requires Linked(h, v) && l in v.prices && LevelCheck(h, k) && h.levels[k].list == l
    ensures k == LevelKey(h.root.key, l, h.levels[k].price)
    ensures p < |v.prices[l]| && v.prices[l][p] == h.levels[k].price
    ensures h.levels[k].better == Before(v.prices[l], p) && h.levels[k].worse == After(v.prices[l], p)
    ensures Best(h.root, l) == Some(v.prices[l][0])
  {
    assert k in v.queue && OwnLevel(h, v, k);
    p := IndexOf(v.prices[l], k.price);
    assert Ladder(h, l, v.prices[l]) && Rung(h, l, v.prices[l], p);
  }

  lemma AcceptedIsGap(h: Heap, v: View, l: ListId, price: u64, hints: PlaceHints)
    requires Linked(h, v) && Legal(h.root.kind, l) && l in v.prices
    requires InsertChecks(h, l, price, hints)
    ensures hints == GapHints(h.root.key, l, v.prices[l], price)
  {
    var ps := v.prices[l];
    assert Ladder(h, l, ps);
    if hints.better.Some? {
      var p := NeighbourAt(h, v, l, hints.better.value);
      if hints.worse.Some? { var w := NeighbourAt(h, v, l, hints.worse.value); }
      hide Linked, Ladder, LevelCheck;
      GapIsUnique(l.side, ps, price, p + 1);
    } else if hints.worse.Some? {
      var w := NeighbourAt(h, v, l, hints.worse.value);
      hide Linked, Ladder, LevelCheck;
      GapIsUnique(l.side, ps, price, 0);
    }
  }

  lemma GapIsAccepted(h: Heap, v: View, l: ListId, price: u64, g: nat)
    requires Linked(h, v) && Legal(h.root.kind, l) && l in v.prices
    requires g == GapOf(l.side, v.prices[l], price) && IsGap(l.side, v.prices[l], price, g)
    ensures InsertChecks(h, l, price, GapHints(h.root.key, l, v.prices[l], price))
  {
    var ps := v.prices[l];
    assert Ladder(h, l, ps);
    if g > 0 {
      RungChecks(h, v, l, g - 1);
      LevelChecks(h, v, LevelKey(h.root.key, l, ps[g - 1]));
    }
    if g < |ps| {
      RungChecks(h, v, l, g);
      LevelChecks(h, v, LevelKey(h.root.key, l, ps[g]));
    }
    hide Linked, LevelCheck;
  }

  // ------------------------------------------------------------------ the splice

  function NewOrder(root: Root, owner: Pubkey, l: ListId, price: u64, quantity: u64, amount: u64, previous: Option<Key>): Order {
    Order(root.key, owner, root.nextId, l, price, LevelKey(root.key, l, price), previous, None, quantity, quantity, amount, Open)
  }

  function RootPlaced(root: Root): Root
    requires root.nextId < U64_MAX && root.open < U64_MAX
  {
    root.(nextId := root.nextId + 1, open := root.open + 1)
  }

  ghost function Appended(h: Heap, lk: Key, no: Order): Heap
    requires lk in h.levels && no.previous.Some? && no.previous.value in h.orders
    requires h.root.nextId < U64_MAX && h.root.open < U64_MAX
    requires h.levels[lk].count < U64_MAX && h.levels[lk].total + no.quantity <= U64_MAX
  {
    var key := OrderKey(h.root.key, no.id);
    var l := h.levels[lk];
    Heap(RootPlaced(h.root),
         h.orders[no.previous.value := h.orders[no.previous.value].(next := Some(key))][key := no],
         h.levels[lk := l.(last := Some(key), count := l.count + 1, total := l.total + no.quantity)])
  }

  function NewLevel(no: Order, better: Option<u64>, worse: Option<u64>, payer: Pubkey): Level {
    var key := OrderKey(no.book, no.id);
    Level(no.book, no.list, no.price, better, worse, Some(key), Some(key), no.quantity, 1, payer)
  }

  function LevelsHooked(levels: map<Key, Level>, book: Pubkey, new_: Level): map<Key, Level>
    requires new_.better.Some? ==> LevelKey(book, new_.list, new_.better.value) in levels
    requires new_.worse.Some? ==> LevelKey(book, new_.list, new_.worse.value) in levels
  {
    var bk := LevelLink(book, new_.list, new_.better);
    var wk := LevelLink(book, new_.list, new_.worse);
    var a := if bk.Some? then levels[bk.value := levels[bk.value].(worse := Some(new_.price))] else levels;
    var b := if wk.Some? then a[wk.value := a[wk.value].(better := Some(new_.price))] else a;
    b[LevelKey(book, new_.list, new_.price) := new_]
  }

  function BestHooked(root: Root, new_: Level): Root
    requires Legal(root.kind, new_.list)
  {
    if new_.better.Some? then root else root.(best := root.best[Slot(root.kind, new_.list).value := Some(new_.price)])
  }

  ghost function Inserted(h: Heap, no: Order, new_: Level): Heap
    requires new_.better.Some? ==> LevelKey(h.root.key, new_.list, new_.better.value) in h.levels
    requires new_.worse.Some? ==> LevelKey(h.root.key, new_.list, new_.worse.value) in h.levels
    requires h.root.nextId < U64_MAX && h.root.open < U64_MAX && Legal(h.root.kind, new_.list)
  {
    Heap(RootPlaced(BestHooked(h.root, new_)),
         h.orders[OrderKey(h.root.key, no.id) := no],
         LevelsHooked(h.levels, h.root.key, new_))
  }

  /** The new order is backed and carries the next id. */
  ghost predicate FreshOrder(h: Heap, no: Order, l: ListId, price: u64) {
    && no == NewOrder(h.root, no.owner, l, price, no.quantity, no.locked, no.previous)
    && no.quantity > 0
    && Backed(l.side, h.root.decimals, price, no.quantity, no.locked)
    && OnGrid(h.root, price)
    && Legal(h.root.kind, l)
    && h.root.nextId < U64_MAX && h.root.open < U64_MAX
  }

  lemma NextIdUnused(h: Heap, v: View)
    requires WellFormed(h, v)
    ensures OrderKey(h.root.key, h.root.nextId) !in h.orders
  {
  }

  lemma PlacedCount(a: map<Key, Order>, b: map<Key, Order>, book: Pubkey, n: u64)
    requires n < U64_MAX && OpenAt(b, book, n)
    requires forall id: u64 | id < n :: OpenAt(a, book, id) == OpenAt(b, book, id)
    ensures CountOpen(b, book, n + 1) == CountOpen(a, book, n) + 1
  {
    CountFrame(a, b, book, n);
  }

  lemma {:induction false} SumAppend(orders: map<Key, Order>, book: Pubkey, q: seq<u64>, id: u64)
    ensures SumRemaining(orders, book, q + [id]) == SumRemaining(orders, book, q) + RemainingOf(orders, book, id)
  {
    if q == [] {
      assert q + [id] == [id];
    } else {
      SumAppend(orders, book, q[1..], id);
      assert (q + [id])[1..] == q[1..] + [id];
    }
  }

  // ------------------------------------------------------------------ append

  ghost predicate AppendReady(h: Heap, k: Key, q: seq<u64>, no: Order) {
    && k.LevelKey? && k.book == h.root.key && FreshOrder(h, no, k.list, k.price)
    && |q| > 0 && no.previous == Some(OrderKey(h.root.key, q[|q| - 1])) && no.previous.value in h.orders
    && k in h.levels && h.levels[k].count < U64_MAX && h.levels[k].total + no.quantity <= U64_MAX
    && OrderKey(h.root.key, no.id) !in h.orders
  }

  lemma AppendedNode(h: Heap, k: Key, q: seq<u64>, no: Order, j: nat)
    requires AppendReady(h, k, q, no) && Ascending(q) && j < |q| && Node(h, k, q, j)
    ensures Node(Appended(h, k, no), k, q + [no.id], j)
  {
    hide Backed, OnGrid;
    assert j + 1 < |q| ==> q[j] != q[|q| - 1];
  }

  lemma AppendedLastNode(h: Heap, k: Key, q: seq<u64>, no: Order)
    requires AppendReady(h, k, q, no)
    requires 0 < h.root.nextId
    ensures Node(Appended(h, k, no), k, q + [no.id], |q|)
  {
    hide OnGrid;
  }

  lemma AppendedQueue(h: Heap, k: Key, q: seq<u64>, no: Order)
    requires AppendReady(h, k, q, no) && Queue(h, k, q) && 0 < h.root.nextId
    ensures Queue(Appended(h, k, no), k, q + [no.id])
  {
    var h' := Appended(h, k, no);
    var q' := q + [no.id];
    assert Node(h, k, q, |q| - 1);
    AppendedSum(h, k, q, no);
    hide AppendReady, FreshOrder, Node;
    forall j | 0 <= j < |q'| ensures Node(h', k, q', j) {
      if j < |q| {
        assert Node(h, k, q, j);
        AppendedNode(h, k, q, no, j);
      } else {
        AppendedLastNode(h, k, q, no);
      }
    }
  }

  lemma AppendedSum(h: Heap, k: Key, q: seq<u64>, no: Order)
    requires AppendReady(h, k, q, no) && Ascending(q)
    requires Node(h, k, q, |q| - 1)
    requires h.levels[k].count == |q| && h.levels[k].total == SumRemaining(h.orders, h.root.key, q)
    requires forall j {:trigger Node(h, k, q, j)} :: 0 <= j < |q| ==> Node(h, k, q, j)
    ensures var h' := Appended(h, k, no);
      && Ascending(q + [no.id]) && h'.root.key == h.root.key && k in h'.levels
      && h'.levels[k].first == h.levels[k].first && h'.levels[k].last == Some(OrderKey(h.root.key, no.id))
      && h'.levels[k].count == |q| + 1
      && h'.levels[k].total == SumRemaining(h'.orders, h.root.key, q + [no.id])
  {
    var h' := Appended(h, k, no);
    hide Backed, OnGrid;
    assert q[|q| - 1] < h.root.nextId;
    SumAppend(h'.orders, h.root.key, q, no.id);
    forall id <- q ensures RemainingOf(h.orders, h.root.key, id) == RemainingOf(h'.orders, h.root.key, id) {
      assert Node(h, k, q, IndexOf(q, id));
    }
    SumFrame(h.orders, h'.orders, h.root.key, q);
  }

  lemma AppendedQueues(h: Heap, v: View, lk: Key, no: Order)
    requires WellFormed(h, v) && lk in v.queue && AppendReady(h, lk, v.queue[lk], no)
    ensures Queues(Appended(h, lk, no), View(v.prices, v.queue[lk := v.queue[lk] + [no.id]]))
  {
    var h' := Appended(h, lk, no);
    var v' := View(v.prices, v.queue[lk := v.queue[lk] + [no.id]]);
    var tail := v.queue[lk][|v.queue[lk]| - 1];
    assert Queue(h, lk, v.queue[lk]) && Node(h, lk, v.queue[lk], |v.queue[lk]| - 1);
    forall k <- v'.queue ensures OwnLevel(h', v', k) && Queue(h', k, v'.queue[k]) {
      assert OwnLevel(h, v, k) && Queue(h, k, v.queue[k]);
      OnGridFrame(h.root, h'.root, k.price);
      hide OnGrid, Ladders, NoStray, Backed;
      if k == lk {
        AppendedQueue(h, lk, v.queue[lk], no);
      } else {
        forall id <- v.queue[k] ensures SameOrder(h.orders, h'.orders, OrderKey(h.root.key, id)) {
          assert Node(h, k, v.queue[k], IndexOf(v.queue[k], id));
        }
        QueueFrame(h, h', k, v.queue[k]);
      }
    }
  }

  lemma AppendedLadders(h: Heap, v: View, lk: Key, no: Order)
    requires Linked(h, v) && lk in v.queue && AppendReady(h, lk, v.queue[lk], no)
    ensures Ladders(Appended(h, lk, no), v.prices)
  {
    var h' := Appended(h, lk, no);
    hide AppendReady;
    forall l <- v.prices ensures Ladder(h', l, v.prices[l]) {
      forall x <- v.prices[l] ensures SameLinks(h, h', LevelKey(h.root.key, l, x)) {
        RungChecks(h, v, l, IndexOf(v.prices[l], x));
      }
      LadderFrame(h, h', l, v.prices[l]);
    }
  }

  lemma AppendKeepsWellFormed(h: Heap, v: View, lk: Key, no: Order)
    requires WellFormed(h, v) && lk in v.queue && AppendReady(h, lk, v.queue[lk], no)
    ensures WellFormed(Appended(h, lk, no), View(v.prices, v.queue[lk := v.queue[lk] + [no.id]]))
  {
    AppendedLadders(h, v, lk, no);
    AppendedQueues(h, v, lk, no);
    AppendedRest(h, v, lk, no);
    hide Queues, Ladders, AppendReady, Canonical, SoundRoot, NoStray;
  }

  lemma AppendedRest(h: Heap, v: View, lk: Key, no: Order)
    requires WellFormed(h, v) && lk in v.queue && AppendReady(h, lk, v.queue[lk], no)
    ensures var h' := Appended(h, lk, no);
      && Canonical(h') && SoundRoot(h'.root) && h'.root.kind == h.root.kind && h'.root.key == h.root.key
      && NoStray(h', View(v.prices, v.queue[lk := v.queue[lk] + [no.id]]))
      && h'.levels.Keys == h.levels.Keys
      && h'.root.open == CountOpen(h'.orders, h'.root.key, h'.root.nextId)
  {
    hide Queues, Ladders, Backed, OnGrid;
    PlacedCount(h.orders, Appended(h, lk, no).orders, h.root.key, h.root.nextId);
  }

  // ------------------------------------------------------------------ insert

  ghost predicate InsertReady(h: Heap, l: ListId, ps: seq<u64>, g: nat, no: Order, new_: Level) {
    && FreshOrder(h, no, l, no.price) && no.previous.None?
    && IsGap(l.side, ps, no.price, g)
    && Ladder(h, l, ps)
    && new_ == NewLevel(no, PriceBefore(ps, g), PriceAfter(ps, g), new_.rentPayer)
    && (g > 0 ==> Rung(h, l, ps, g - 1))
    && (g < |ps| ==> Rung(h, l, ps, g))
    && OrderKey(h.root.key, no.id) !in h.orders
    && LevelKey(h.root.key, l, no.price) !in h.levels
  }

  lemma InsertedRung(h: Heap, l: ListId, ps: seq<u64>, g: nat, no: Order, new_: Level, j: nat)
    requires InsertReady(h, l, ps, g, no, new_) && j <= |ps|
    requires j < g ==> Rung(h, l, ps, j)
    requires j > g ==> Rung(h, l, ps, j - 1)
    ensures Rung(Inserted(h, no, new_), l, InsertAt(ps, g, no.price), j)
  {
    hide Backed, OnGrid;
    var ps' := InsertAt(ps, g, no.price);
    if j < g {
      assert ps'[j] == ps[j] != no.price;
      assert j + 1 < g ==> After(ps', j) == After(ps, j);
      assert Before(ps', j) == Before(ps, j);
      assert j + 1 < g ==> ps[j] != ps[g - 1];
    } else if j > g {
      assert ps'[j] == ps[j - 1] != no.price;
      assert j > g + 1 ==> Before(ps', j) == Before(ps, j - 1);
      assert After(ps', j) == After(ps, j - 1);
      assert j > g + 1 ==> ps[j - 1] != ps[g];
    }
  }

  lemma InsertedLadder(h: Heap, l: ListId, ps: seq<u64>, g: nat, no: Order, new_: Level)
    requires InsertReady(h, l, ps, g, no, new_)
    ensures Ladder(Inserted(h, no, new_), l, InsertAt(ps, g, no.price))
  {
    var ps' := InsertAt(ps, g, no.price);
    InsertKeepsRanked(l.side, ps, no.price, g);
    forall j | 0 <= j < |ps'| ensures Rung(Inserted(h, no, new_), l, ps', j) {
      if j < g { assert Rung(h, l, ps, j); }
      if j > g { assert Rung(h, l, ps, j - 1); }
      InsertedRung(h, l, ps, g, no, new_, j);
    }
    hide Backed, OnGrid, Rung;
  }

  lemma InsertKeepsOther(h: Heap, l: ListId, ps: seq<u64>, g: nat, no: Order, new_: Level, k: Key)
    requires InsertReady(h, l, ps, g, no, new_) && k in h.levels
    ensures SameQueueEnds(h, Inserted(h, no, new_), k)
    ensures !k.LevelKey? || k.list != l || k.book != h.root.key ==> SameLinks(h, Inserted(h, no, new_), k)
  {
    hide Backed, OnGrid;
  }

  lemma InsertedLadders(h: Heap, v: View, l: ListId, g: nat, no: Order, new_: Level)
    requires Linked(h, v) && l in v.prices && InsertReady(h, l, v.prices[l], g, no, new_)
    ensures Ladders(Inserted(h, no, new_), v.prices[l := InsertAt(v.prices[l], g, no.price)])
  {
    var h' := Inserted(h, no, new_);
    hide Backed, OnGrid;
    forall l' | l' in v.prices
      ensures Ladder(h', l', if l' == l then InsertAt(v.prices[l], g, no.price) else v.prices[l'])
    {
      assert Ladder(h, l', v.prices[l']);
      if l' == l {
        InsertedLadder(h, l, v.prices[l], g, no, new_);
      } else {
        SlotInjective(h.root.kind, l, l');
        forall x <- v.prices[l'] ensures SameLinks(h, h', LevelKey(h.root.key, l', x)) {
          RungChecks(h, v, l', IndexOf(v.prices[l'], x));
          InsertKeepsOther(h, l, v.prices[l], g, no, new_, LevelKey(h.root.key, l', x));
        }
        LadderFrame(h, h', l', v.prices[l']);
      }
    }
  }

  lemma InsertedOwnQueue(h: Heap, l: ListId, ps: seq<u64>, g: nat, no: Order, new_: Level)
    requires InsertReady(h, l, ps, g, no, new_) && 0 < h.root.nextId
    ensures Queue(Inserted(h, no, new_), LevelKey(h.root.key, l, no.price), [no.id])
  {
    hide OnGrid, Ladder;
    var h' := Inserted(h, no, new_);
    var k := LevelKey(h.root.key, l, no.price);
    assert Node(h', k, [no.id], 0);
    assert SumRemaining(h'.orders, h.root.key, [no.id]) == RemainingOf(h'.orders, h.root.key, no.id) + SumRemaining(h'.orders, h.root.key, []);
  }

  lemma InsertedQueues(h: Heap, v: View, l: ListId, g: nat, no: Order, new_: Level)
    requires Linked(h, v) && l in v.prices && InsertReady(h, l, v.prices[l], g, no, new_)
    ensures Queues(Inserted(h, no, new_),
                   View(v.prices[l := InsertAt(v.prices[l], g, no.price)], v.queue[LevelKey(h.root.key, l, no.price) := [no.id]]))
  {
    var h' := Inserted(h, no, new_);
    var nk := LevelKey(h.root.key, l, no.price);
    var v' := View(v.prices[l := InsertAt(v.prices[l], g, no.price)], v.queue[nk := [no.id]]);
    InsertMembers(v.prices[l], g, no.price);
    assert h'.root.tick == h.root.tick && h'.root.payout == h.root.payout && h'.root.kind == h.root.kind && h'.root.key == h.root.key;
    hide Backed, Ladder, Inserted, Node, OnGrid, Ladders;
    forall k <- v'.queue ensures OwnLevel(h', v', k) && Queue(h', k, v'.queue[k]) {
      if k == nk {
        OnGridFrame(h.root, h'.root, no.price);
        InsertedOwnQueue(h, l, v.prices[l], g, no, new_);
      } else {
        assert OwnLevel(h, v, k) && Queue(h, k, v.queue[k]);
        OnGridFrame(h.root, h'.root, k.price);
        InsertedOtherQueue(h, l, v.prices[l], g, no, new_, k, v.queue[k]);
      }
    }
  }

  lemma InsertedOtherQueue(h: Heap, l: ListId, ps: seq<u64>, g: nat, no: Order, new_: Level, k: Key, q: seq<u64>)
    requires InsertReady(h, l, ps, g, no, new_) && k.LevelKey? && Queue(h, k, q)
    ensures Queue(Inserted(h, no, new_), k, q)
  {
    var h' := Inserted(h, no, new_);
    InsertKeepsOther(h, l, ps, g, no, new_, k);
    hide OnGrid, Backed, Ladder, Rung;
    forall id <- q ensures SameOrder(h.orders, h'.orders, OrderKey(h.root.key, id)) {
      assert Node(h, k, q, IndexOf(q, id));
    }
    QueueFrame(h, h', k, q);
  }

  lemma InsertMembers<T>(s: seq<T>, g: nat, x: T)
    requires g <= |s|
    ensures forall y :: y in InsertAt(s, g, x) <==> y == x || y in s
  {
    forall y | y in s ensures y in InsertAt(s, g, x) {
      var j := IndexOf(s, y);
      assert InsertAt(s, g, x)[if j < g then j else j + 1] == y;
    }
    assert InsertAt(s, g, x)[g] == x;
  }

  lemma InsertKeepsWellFormed(h: Heap, v: View, l: ListId, g: nat, no: Order, new_: Level)
    requires WellFormed(h, v) && l in v.prices && InsertReady(h, l, v.prices[l], g, no, new_)
    ensures WellFormed(Inserted(h, no, new_),
                       View(v.prices[l := InsertAt(v.prices[l], g, no.price)], v.queue[LevelKey(h.root.key, l, no.price) := [no.id]]))
  {
    InsertedRest(h, v, l, g, no, new_);
    InsertedCanonical(h, l, v.prices[l], g, no, new_);
    InsertedLadders(h, v, l, g, no, new_);
    InsertedQueues(h, v, l, g, no, new_);
    hide Queues, Ladders, InsertReady, Canonical, SoundRoot, NoStray;
  }

  lemma HookKeepsIdentity(levels: map<Key, Level>, book: Pubkey, new_: Level, k: Key)
    requires new_.better.Some? ==> LevelKey(book, new_.list, new_.better.value) in levels
    requires new_.worse.Some? ==> LevelKey(book, new_.list, new_.worse.value) in levels
    requires k in levels && k != LevelKey(book, new_.list, new_.price)
    ensures var a := levels[k]; var b := LevelsHooked(levels, book, new_)[k];
      b == a.(better := b.better, worse := b.worse)
  {
  }

  lemma InsertedCanonical(h: Heap, l: ListId, ps: seq<u64>, g: nat, no: Order, new_: Level)
    requires Canonical(h) && InsertReady(h, l, ps, g, no, new_)
    ensures Canonical(Inserted(h, no, new_))
    ensures forall k <- Inserted(h, no, new_).levels :: k == LevelKey(h.root.key, l, no.price) || k in h.levels
  {
    var h' := Inserted(h, no, new_);
    hide Backed, OnGrid, Ladder;
    forall k {:trigger k in h'.levels} | k in h'.levels
      ensures k == LevelKey(h.root.key, l, no.price) || k in h.levels
      ensures k.LevelKey? && h'.levels[k].book == k.book && h'.levels[k].list == k.list && h'.levels[k].price == k.price
    {
      if k in h.levels { HookKeepsIdentity(h.levels, h.root.key, new_, k); }
    }
  }

  lemma InsertedRest(h: Heap, v: View, l: ListId, g: nat, no: Order, new_: Level)
    requires WellFormed(h, v) && l in v.prices && InsertReady(h, l, v.prices[l], g, no, new_)
    ensures var h' := Inserted(h, no, new_);
      var nk := LevelKey(h.root.key, l, no.price);
      && SoundRoot(h'.root) && h'.root.kind == h.root.kind && h'.root.key == h.root.key
      && NoStray(h', View(v.prices[l := InsertAt(v.prices[l], g, no.price)], v.queue[nk := [no.id]]))
      && h'.root.open == CountOpen(h'.orders, h'.root.key, h'.root.nextId)
  {
    hide Queues, Ladders, Backed, OnGrid, Ladder;
    if LevelKey(h.root.key, l, no.price) in v.queue {
      LevelChecks(h, v, LevelKey(h.root.key, l, no.price));
      assert false;
    }
    PlacedCount(h.orders, Inserted(h, no, new_).orders, h.root.key, h.root.nextId);
  }

  // ------------------------------------------------------------------ order terms

  /** `order_terms` on a legal list: the collateral a new resting order locks, or None for a rejected request. */
  function OrderTerms(root: Root, l: ListId, price: u64, quantity: u64): Option<u64> {
    if !Legal(root.kind, l) || !OnGrid(root, price) || quantity == 0 || root.lot == 0 || quantity % root.lot != 0 then None
    else
      var notional := QuoteAmount(root.decimals, price, quantity);
      if notional.None? || notional.value == 0 then None
      else Some(if l.side.Bid? then notional.value else quantity)
  }

  /** Accepted terms lock a positive amount that backs the whole order. */
  lemma TermsBackOrder(root: Root, l: ListId, price: u64, quantity: u64)
    requires OrderTerms(root, l, price, quantity).Some?
    ensures var amount := OrderTerms(root, l, price, quantity).value;
      && Legal(root.kind, l) && OnGrid(root, price) && quantity > 0 && amount > 0
      && Backed(l.side, root.decimals, price, quantity, amount)
      && (l.side.Bid? ==> amount == Notional(root.decimals, price, quantity))
  {
    if root.decimals == 0 { NotionalWhole(price, quantity); }
  }

  // ------------------------------------------------------------------ the placement

  /** The view with one more order: last in the queue of its price, whose level is spliced in at its gap if new. */
  ghost function Placed(v: View, lk: Key, id: u64): View
    requires lk.LevelKey? && lk.list in v.prices
  {
    if lk in v.queue then View(v.prices, v.queue[lk := v.queue[lk] + [id]])
    else View(v.prices[lk.list := InsertAt(v.prices[lk.list], GapOf(lk.list.side, v.prices[lk.list], lk.price), lk.price)],
              v.queue[lk := [id]])
  }
}
