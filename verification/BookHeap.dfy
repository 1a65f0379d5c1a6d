/**
 * The shared order book as the accounts it is made of: one root, price levels linked best to worst, and a FIFO
 * queue of orders linked oldest to newest under each level. `View` is the book a reader sees: sorted prices per
 * list and a queue of order ids per level; `Linked` says that the accounts represent it.
 */
module BookHeap {
  import opened Base
  import opened Settlement

  datatype Outcome = Spot | Yes | No
  datatype Kind = SpotKind | PredictionKind
  datatype Status = Open | Filled | Canceled
  datatype ListId = ListId(outcome: Outcome, side: Side)
  type Pubkey = nat

  /** A program-derived address is injective in its seeds. */
  datatype Key = OrderKey(book: Pubkey, id: u64) | LevelKey(book: Pubkey, list: ListId, price: u64)

  datatype Order = Order(book: Pubkey, owner: Pubkey, id: u64, list: ListId, price: u64, priceLevel: Key,
                         previous: Option<Key>, next: Option<Key>, quantity: u64, remaining: u64, locked: u64,
                         status: Status)

  datatype Level = Level(book: Pubkey, list: ListId, price: u64, better: Option<u64>, worse: Option<u64>,
                         first: Option<Key>, last: Option<Key>, total: u64, count: u64, rentPayer: Pubkey)

  type Heads = s: seq<Option<u64>> | |s| == 4 witness [None, None, None, None]

  datatype Root = Root(key: Pubkey, kind: Kind, decimals: nat, tick: u64, lot: u64, payout: u64, best: Heads,
                       nextId: u64, open: u64, fees: u64)

  datatype Heap = Heap(root: Root, orders: map<Key, Order>, levels: map<Key, Level>)

  datatype View = View(prices: map<ListId, seq<u64>>, queue: map<Key, seq<u64>>)

  // ------------------------------------------------------------------ slots

  /** SharedBook::slot: spot uses heads 0 and 1; prediction YES 0 and 1, NO 2 and 3. None is a kind mismatch. */
  function Slot(kind: Kind, l: ListId): (r: Option<nat>)
    ensures r.Some? ==> r.value < 4
  {
    var ask := if l.side.Ask? then 1 else 0;
    match (kind, l.outcome)
    case (SpotKind, Spot) => Some(ask)
    case (PredictionKind, Yes) => Some(ask)
    case (PredictionKind, No) => Some(2 + ask)
    case _ => None
  }

  predicate Legal(kind: Kind, l: ListId) {
    Slot(kind, l).Some?
  }

  /** `slot ^ 1`. */
  function OtherSlot(slot: nat): (r: nat)
    requires slot < 4
    ensures r < 4
  {
    if slot % 2 == 0 then slot + 1 else slot - 1
  }

  function OtherSide(l: ListId): ListId {
    ListId(l.outcome, Opposite(l.side))
  }

  /** Asks have the odd heads, NO the upper pair; spot books take spot lists only, prediction books the others. */
  lemma SlotLayout(kind: Kind, l: ListId)
    ensures Legal(kind, l) <==> (kind.SpotKind? <==> l.outcome.Spot?)
    ensures Legal(kind, l) ==> var s := Slot(kind, l).value;
      s < 4 && (s % 2 == 1 <==> l.side.Ask?) && (s / 2 == 1 <==> l.outcome.No?)
  {
  }

  lemma SlotInjective(kind: Kind, a: ListId, b: ListId)
    requires Legal(kind, a) && Legal(kind, b)
    ensures Slot(kind, a) == Slot(kind, b) <==> a == b
    ensures Slot(kind, OtherSide(a)) == Some(OtherSlot(Slot(kind, a).value))
  {
  }

  function Best(root: Root, l: ListId): Option<u64>
    requires Legal(root.kind, l)
  {
    root.best[Slot(root.kind, l).value]
  }

  // ---------------------------------------------------------- well-formedness

  /** Strictly better price on the given side. */
  predicate Precedes(side: Side, a: nat, b: nat) {
    if side.Bid? then a > b else a < b
  }

  ghost predicate Ranked(side: Side, ps: seq<u64>) {
    forall i, j :: 0 <= i < j < |ps| ==> Precedes(side, ps[i], ps[j])
  }

  ghost predicate Ascending(q: seq<u64>) {
    forall i, j :: 0 <= i < j < |q| ==> q[i] < q[j]
  }

  predicate OnGrid(root: Root, price: nat) {
    && price > 0 && root.tick > 0 && price % root.tick == 0
    && (root.kind.PredictionKind? ==> price < root.payout)
  }

  function Head<T>(s: seq<T>): Option<T> {
    if |s| == 0 then None else Some(s[0])
  }

  function OrderLink(book: Pubkey, id: Option<u64>): Option<Key> {
    if id.None? then None else Some(OrderKey(book, id.value))
  }

  function LevelLink(book: Pubkey, l: ListId, price: Option<u64>): Option<Key> {
    if price.None? then None else Some(LevelKey(book, l, price.value))
  }

  ghost predicate Rung(h: Heap, l: ListId, ps: seq<u64>, i: nat)
    requires i < |ps|
  {
    var k := LevelKey(h.root.key, l, ps[i]);
    k in h.levels && h.levels[k].better == Before(ps, i) && h.levels[k].worse == After(ps, i)
  }

  /** The list's levels are strictly sorted from the best price, with reciprocal links and the root's head. */
  ghost predicate Ladder(h: Heap, l: ListId, ps: seq<u64>) {
    && Legal(h.root.kind, l)
    && Ranked(l.side, ps)
    && Best(h.root, l) == Head(ps)
    && forall i {:trigger Rung(h, l, ps, i)} :: 0 <= i < |ps| ==> Rung(h, l, ps, i)
  }

  ghost predicate Sound(root: Root, o: Order) {
    && 0 < o.id < root.nextId
    && o.status.Open?
    && 0 < o.remaining <= o.quantity
    && Backed(o.list.side, root.decimals, o.price, o.remaining, o.locked)
  }

  ghost predicate Node(h: Heap, k: Key, q: seq<u64>, j: nat)
    requires k.LevelKey? && j < |q|
  {
    var ok := OrderKey(h.root.key, q[j]);
    && ok in h.orders
    && var o := h.orders[ok];
    && o.id == q[j] && o.list == k.list && o.price == k.price && o.priceLevel == k
    && o.previous == OrderLink(h.root.key, Before(q, j))
    && o.next == OrderLink(h.root.key, After(q, j))
    && Sound(h.root, o)
  }

  function RemainingOf(orders: map<Key, Order>, book: Pubkey, id: u64): nat {
    if OrderKey(book, id) in orders then orders[OrderKey(book, id)].remaining else 0
  }

  function SumRemaining(orders: map<Key, Order>, book: Pubkey, q: seq<u64>): nat {
    if q == [] then 0 else RemainingOf(orders, book, q[0]) + SumRemaining(orders, book, q[1..])
  }

  /** One level's queue: ids increase from oldest to newest, links are reciprocal, count and total summarise it. */
  ghost predicate Queue(h: Heap, k: Key, q: seq<u64>)
    requires k.LevelKey?
  {
    && |q| > 0
    && Ascending(q)
    && k in h.levels
    && h.levels[k].first == Some(OrderKey(h.root.key, q[0]))
    && h.levels[k].last == Some(OrderKey(h.root.key, q[|q| - 1]))
    && h.levels[k].count == |q|
    && h.levels[k].total == SumRemaining(h.orders, h.root.key, q)
    && forall j {:trigger Node(h, k, q, j)} :: 0 <= j < |q| ==> Node(h, k, q, j)
  }

  /** Every account sits at the address derived from its own fields. */
  ghost predicate Canonical(h: Heap) {
    && (forall k <- h.orders :: k.OrderKey? && h.orders[k].book == k.book && h.orders[k].id == k.id)
    && (forall k <- h.levels :: k.LevelKey? && h.levels[k].book == k.book && h.levels[k].list == k.list
                                && h.levels[k].price == k.price)
  }

  ghost predicate SoundRoot(root: Root) {
    && root.tick > 0 && root.lot > 0
    && root.nextId > 0
    && (root.kind.PredictionKind? ==> root.decimals == 0 && root.lot == 1)
  }

  ghost predicate OwnLevel(h: Heap, v: View, k: Key) {
    && k.LevelKey? && k.book == h.root.key
    && k.list in v.prices && k.price in v.prices[k.list]
    && OnGrid(h.root, k.price)
  }

  ghost predicate Ladders(h: Heap, prices: map<ListId, seq<u64>>) {
    forall l <- prices :: Ladder(h, l, prices[l])
  }

  ghost predicate Queues(h: Heap, v: View) {
    forall k <- v.queue :: OwnLevel(h, v, k) && Queue(h, k, v.queue[k])
  }

  /** The accounts of this book represent exactly the view. */
  ghost predicate Linked(h: Heap, v: View) {
    && Canonical(h)
    && SoundRoot(h.root)
    && (forall l :: l in v.prices <==> Legal(h.root.kind, l))
    && Ladders(h, v.prices)
    && Queues(h, v)
    && (forall k <- h.levels :: k.book == h.root.key ==> k in v.queue)
  }

  ghost predicate InQueue(v: View, k: Key, id: u64) {
    k in v.queue && id in v.queue[k]
  }

  function LevelOf(o: Order): Key {
    LevelKey(o.book, o.list, o.price)
  }

  /** Every order account of this book has an issued id, and every open one stands in the queue of its price. */
  ghost predicate NoStray(h: Heap, v: View) {
    forall k <- h.orders :: k.book == h.root.key ==>
      && k.OrderKey? && 0 < k.id < h.root.nextId
      && (h.orders[k].status.Open? ==> InQueue(v, LevelOf(h.orders[k]), k.id))
  }

  predicate OpenAt(orders: map<Key, Order>, book: Pubkey, id: u64) {
    OrderKey(book, id) in orders && orders[OrderKey(book, id)].status.Open?
  }

  /** Number of open orders with an id below n. */
  function CountOpen(orders: map<Key, Order>, book: Pubkey, n: u64): nat {
    if n == 0 then 0
    else CountOpen(orders, book, n - 1) + (if OpenAt(orders, book, n - 1) then 1 else 0)
  }

  ghost predicate WellFormed(h: Heap, v: View) {
    && Linked(h, v)
    && NoStray(h, v)
    && h.root.open == CountOpen(h.orders, h.root.key, h.root.nextId)
  }

  lemma BookIsLinked(h: Heap, v: View)
    requires WellFormed(h, v)
    ensures Linked(h, v)
  {
  }

  lemma RankedPrices(h: Heap, v: View, l: ListId)
    requires WellFormed(h, v) && l in v.prices
    ensures Ranked(l.side, v.prices[l])
  {
    assert Ladder(h, l, v.prices[l]) by { assert Ladders(h, v.prices); }
  }

  // ---------------------------------------------------------- facts about sums

  lemma {:induction false} SumFrame(a: map<Key, Order>, b: map<Key, Order>, book: Pubkey, q: seq<u64>)
    requires forall id <- q :: RemainingOf(a, book, id) == RemainingOf(b, book, id)
    ensures SumRemaining(a, book, q) == SumRemaining(b, book, q)
  {
    if q != [] {
      SumFrame(a, b, book, q[1..]);
    }
  }

  lemma {:induction false} SumDropAt(a: map<Key, Order>, book: Pubkey, q: seq<u64>, i: nat)
    requires i < |q|
    ensures SumRemaining(a, book, q) == SumRemaining(a, book, DropAt(q, i)) + RemainingOf(a, book, q[i])
  {
    if i == 0 {
      assert DropAt(q, 0) == q[1..];
    } else {
      SumDropAt(a, book, q[1..], i - 1);
      assert DropAt(q, i)[1..] == DropAt(q[1..], i - 1);
    }
  }

  lemma {:induction false} CountFrame(a: map<Key, Order>, b: map<Key, Order>, book: Pubkey, n: u64)
    requires forall id: u64 | id < n :: OpenAt(a, book, id) == OpenAt(b, book, id)
    ensures CountOpen(a, book, n) == CountOpen(b, book, n)
  {
    if n > 0 { CountFrame(a, b, book, n - 1); }
  }

  lemma {:induction false} CountFlip(a: map<Key, Order>, b: map<Key, Order>, book: Pubkey, n: u64, x: u64)
    requires x < n && OpenAt(a, book, x) && !OpenAt(b, book, x)
    requires forall id: u64 | id < n && id != x :: OpenAt(a, book, id) == OpenAt(b, book, id)
    ensures CountOpen(a, book, n) == CountOpen(b, book, n) + 1
  {
    if n - 1 == x {
      CountFrame(a, b, book, n - 1);
    } else {
      CountFlip(a, b, book, n - 1, x);
    }
  }

  // ------------------------------------------------------------ frames of views

  ghost predicate SameLinks(h: Heap, h': Heap, k: Key) {
    && k in h.levels && k in h'.levels
    && h'.levels[k].better == h.levels[k].better && h'.levels[k].worse == h.levels[k].worse
  }

  ghost predicate SameQueueEnds(h: Heap, h': Heap, k: Key) {
    && k in h.levels && k in h'.levels
    && h'.levels[k].first == h.levels[k].first && h'.levels[k].last == h.levels[k].last
    && h'.levels[k].count == h.levels[k].count && h'.levels[k].total == h.levels[k].total
  }

  lemma LadderFrame(h: Heap, h': Heap, l: ListId, ps: seq<u64>)
    requires Ladder(h, l, ps)
    requires h'.root.key == h.root.key && h'.root.kind == h.root.kind && Best(h'.root, l) == Best(h.root, l)
    requires forall p <- ps :: SameLinks(h, h', LevelKey(h.root.key, l, p))
    ensures Ladder(h', l, ps)
  {
    forall i | 0 <= i < |ps| ensures Rung(h', l, ps, i) {
      assert Rung(h, l, ps, i);
    }
  }

  ghost predicate SameOrder(a: map<Key, Order>, b: map<Key, Order>, k: Key) {
    k in a && k in b && a[k] == b[k]
  }

  lemma QueueFrame(h: Heap, h': Heap, k: Key, q: seq<u64>)
    requires k.LevelKey? && Queue(h, k, q)
    requires h'.root.key == h.root.key && h'.root.decimals == h.root.decimals && h'.root.nextId >= h.root.nextId
    requires SameQueueEnds(h, h', k)
    requires forall id <- q :: SameOrder(h.orders, h'.orders, OrderKey(h.root.key, id))
    ensures Queue(h', k, q)
  {
    forall j | 0 <= j < |q| ensures Node(h', k, q, j) {
      assert Node(h, k, q, j);
    }
    SumFrame(h.orders, h'.orders, h.root.key, q);
  }

  /** An order stands in the queue of its own level only. */
  lemma QueuesDisjoint(h: Heap, v: View, a: Key, b: Key, id: u64)
    requires Linked(h, v) && InQueue(v, a, id) && InQueue(v, b, id)
    ensures a == b
  {
    var i := IndexOf(v.queue[a], id);
    var j := IndexOf(v.queue[b], id);
    assert Node(h, a, v.queue[a], i) && Node(h, b, v.queue[b], j);
  }
}
