/**
 * `remove_order`: constant-size local checks, then pointer repair in two nested linked lists and three counters.
 * Against a well-formed heap the checks accept exactly one set of hints, and the repair is exactly "delete this
 * order" on the view.
 */
module Removal {
  import opened Base
  import opened Settlement
  import opened BookHeap

  /** The optional neighbour accounts and rent recipient that an instruction supplies. */
  datatype Hints = Hints(previous: Option<Key>, next: Option<Key>, better: Option<Key>, worse: Option<Key>,
                         recipient: Option<Pubkey>)

  // ------------------------------------------------------------ account checks

  /** `rules::order`. */
  predicate OrderCheck(h: Heap, k: Key) {
    && k in h.orders
    && var o := h.orders[k];
    && Legal(h.root.kind, o.list)
    && o.book == h.root.key
    && 0 < o.id < h.root.nextId
    && o.status.Open?
    && 0 < o.remaining <= o.quantity
    && o.price > 0
    && o.locked > 0
    && k == OrderKey(h.root.key, o.id)
    && o.priceLevel == LevelKey(h.root.key, o.list, o.price)
    && CoversRemaining(h.root, o)
  }

  predicate CoversRemaining(root: Root, o: Order) {
    if o.list.side.Bid? then
      var q := QuoteAmount(root.decimals, o.price, o.remaining);
      q.Some? && o.locked >= q.value
    else o.locked == o.remaining
  }

  lemma BackedCovers(root: Root, o: Order)
    requires Backed(o.list.side, root.decimals, o.price, o.remaining, o.locked)
    ensures CoversRemaining(root, o)
  {
  }

  /** `rules::level`. */
  predicate LevelCheck(h: Heap, k: Key) {
    && k in h.levels
    && var l := h.levels[k];
    && Legal(h.root.kind, l.list)
    && l.book == h.root.key
    && l.price > 0 && l.count > 0 && l.total > 0
    && l.first.Some? && l.last.Some?
    && k == LevelKey(h.root.key, l.list, l.price)
  }

  predicate NotBeforeBest(side: Side, best: nat, price: nat) {
    if side.Bid? then best >= price else best <= price
  }

  predicate PreviousCheck(h: Heap, rk: Key, o: Order, previous: Option<Key>) {
    previous.Some? ==>
      && OrderCheck(h, previous.value)
      && previous.value != rk
      && var p := h.orders[previous.value];
      && p.priceLevel == o.priceLevel && p.list == o.list && p.price == o.price
      && p.next == Some(rk) && p.id < o.id
  }

  predicate NextCheck(h: Heap, rk: Key, o: Order, next: Option<Key>) {
    next.Some? ==>
      && OrderCheck(h, next.value)
      && next.value != rk
      && var n := h.orders[next.value];
      && n.priceLevel == o.priceLevel && n.list == o.list && n.price == o.price
      && n.previous == Some(rk) && n.id > o.id
  }

  predicate BetterCheck(h: Heap, l: Level, better: Option<Key>) {
    better.Some? ==>
      && LevelCheck(h, better.value)
      && var b := h.levels[better.value];
      && b.list == l.list && b.worse == Some(l.price) && Precedes(l.list.side, b.price, l.price)
  }

  predicate WorseCheck(h: Heap, l: Level, worse: Option<Key>) {
    worse.Some? ==>
      && LevelCheck(h, worse.value)
      && var w := h.levels[worse.value];
      && w.list == l.list && w.better == Some(l.price) && Precedes(l.list.side, l.price, w.price)
  }

  predicate HeadCheck(root: Root, l: Level)
    requires Legal(root.kind, l.list)
  {
    && Best(root, l.list).Some?
    && var best := Best(root, l.list).value;
    && (best == l.price) == l.better.None?
    && NotBeforeBest(l.list.side, best, l.price)
  }

  predicate EndsCheck(l: Level, rk: Key, o: Order) {
    && (l.first == Some(rk)) == o.previous.None?
    && (l.last == Some(rk)) == o.next.None?
  }

  predicate CountersCheck(h: Heap, o: Order, l: Level, hints: Hints) {
    && o.remaining <= l.total
    && h.root.open >= 1
    && if l.count == 1 then
         && hints.previous.None? && hints.next.None? && l.total == o.remaining
         && hints.better == LevelLink(h.root.key, o.list, l.better)
         && hints.worse == LevelLink(h.root.key, o.list, l.worse)
         && BetterCheck(h, l, hints.better)
         && WorseCheck(h, l, hints.worse)
         && hints.recipient == Some(l.rentPayer)
       else
         && l.total > o.remaining
         && (hints.previous.Some? || hints.next.Some?)
         && hints.better.None? && hints.worse.None? && hints.recipient.None?
  }

  /** Every `require!` of `remove_order`, in source order. */
  predicate RemoveChecks(h: Heap, rk: Key, lk: Key, hints: Hints) {
    && OrderCheck(h, rk)
    && LevelCheck(h, lk)
    && var o := h.orders[rk];
    && var l := h.levels[lk];
    && o.priceLevel == lk && o.price == l.price && o.list == l.list
    && HeadCheck(h.root, l)
    && hints.previous == o.previous && hints.next == o.next
    && EndsCheck(l, rk, o)
    && PreviousCheck(h, rk, o, hints.previous)
    && NextCheck(h, rk, o, hints.next)
    && CountersCheck(h, o, l, hints)
  }

  // ----------------------------------------------------------------- the repair

  function OrdersDetached(orders: map<Key, Order>, o: Order): map<Key, Order>
    requires o.previous.Some? ==> o.previous.value in orders
    requires o.next.Some? ==> o.next.value in orders
  {
    var a := if o.previous.Some? then orders[o.previous.value := orders[o.previous.value].(next := o.next)] else orders;
    if o.next.Some? then a[o.next.value := a[o.next.value].(previous := o.previous)] else a
  }

  function LevelDetached(l: Level, o: Order): Level
    requires l.count >= 1 && o.remaining <= l.total
  {
    l.(first := if o.previous.Some? then l.first else o.next,
       last := if o.next.Some? then l.last else o.previous,
       count := l.count - 1,
       total := l.total - o.remaining)
  }

  function LevelsUnlinked(levels: map<Key, Level>, book: Pubkey, l: Level): map<Key, Level>
    requires l.better.Some? ==> LevelKey(book, l.list, l.better.value) in levels
    requires l.worse.Some? ==> LevelKey(book, l.list, l.worse.value) in levels
  {
    var bk := LevelLink(book, l.list, l.better);
    var wk := LevelLink(book, l.list, l.worse);
    var a := if bk.Some? then levels[bk.value := levels[bk.value].(worse := l.worse)] else levels;
    var b := if wk.Some? then a[wk.value := a[wk.value].(better := l.better)] else a;
    b - {LevelKey(book, l.list, l.price)}
  }

  function BestUnlinked(root: Root, l: Level): Root
    requires Legal(root.kind, l.list)
  {
    if l.better.Some? then root else root.(best := root.best[Slot(root.kind, l.list).value := l.worse])
  }

  ghost predicate Detachable(h: Heap, rk: Key) {
    && rk in h.orders
    && var o := h.orders[rk];
    && (o.previous.Some? ==> o.previous.value in h.orders)
    && (o.next.Some? ==> o.next.value in h.orders)
    && o.priceLevel in h.levels
    && var l := h.levels[o.priceLevel];
    && l.count >= 1 && o.remaining <= l.total && h.root.open >= 1
    && l.book == h.root.key && Legal(h.root.kind, l.list) && o.priceLevel == LevelKey(h.root.key, l.list, l.price)
    && (l.better.Some? ==> LevelKey(h.root.key, l.list, l.better.value) in h.levels)
    && (l.worse.Some? ==> LevelKey(h.root.key, l.list, l.worse.value) in h.levels)
  }

  /** The heap after `remove_order`; the removed order's own record is left to the caller. */
  ghost function Detached(h: Heap, rk: Key): Heap
    requires Detachable(h, rk)
  {
    var o := h.orders[rk];
    var l := h.levels[o.priceLevel];
    var orders := OrdersDetached(h.orders, o);
    if l.count == 1 then
      Heap(BestUnlinked(h.root, l).(open := h.root.open - 1), orders, LevelsUnlinked(h.levels, h.root.key, l))
    else
      Heap(h.root.(open := h.root.open - 1), orders, h.levels[o.priceLevel := LevelDetached(l, o)])
  }

  // -------------------------------------------------------------- the abstract deletion

  ghost predicate Stands(v: View, k: Key, id: u64) {
    InQueue(v, k, id) && k.LevelKey? && k.list in v.prices && k.price in v.prices[k.list]
  }

  /** Delete one order from the view; its level disappears exactly when the queue becomes empty. */
  ghost function Deleted(v: View, k: Key, id: u64): View
    requires Stands(v, k, id)
  {
    var q := Without(v.queue[k], id);
    if |q| == 0 then View(v.prices[k.list := Without(v.prices[k.list], k.price)], v.queue - {k})
    else View(v.prices, v.queue[k := q])
  }

  // ------------------------------------------------------------------ hints are exact

  /** What `cancelShared` reads off its snapshot. */
  function ClientHints(h: Heap, rk: Key): Hints
    requires rk in h.orders && h.orders[rk].priceLevel in h.levels
  {
    var o := h.orders[rk];
    var l := h.levels[o.priceLevel];
    if l.count == 1 then
      Hints(o.previous, o.next, LevelLink(h.root.key, o.list, l.better), LevelLink(h.root.key, o.list, l.worse),
            Some(l.rentPayer))
    else Hints(o.previous, o.next, None, None, None)
  }

  ghost predicate PositiveLock(h: Heap, k: Option<Key>) {
    k.Some? ==> k.value in h.orders && h.orders[k.value].locked > 0
  }

  /** `order()` refuses a zero lock, on the removed order and on the neighbours it repairs. */
  ghost predicate LocksPositive(h: Heap, rk: Key) {
    rk in h.orders && h.orders[rk].locked > 0 && PositiveLock(h, h.orders[rk].previous) && PositiveLock(h, h.orders[rk].next)
  }

  lemma StandingAt(h: Heap, v: View, rk: Key) returns (lk: Key, i: nat, p: nat)
    requires Linked(h, v) && NoStray(h, v)
    requires rk in h.orders && rk.book == h.root.key && h.orders[rk].status.Open?
    ensures lk == h.orders[rk].priceLevel == LevelOf(h.orders[rk]) && Stands(v, lk, rk.id)
    ensures i < |v.queue[lk]| && rk == OrderKey(h.root.key, v.queue[lk][i]) && Node(h, lk, v.queue[lk], i)
    ensures p < |v.prices[lk.list]| && lk == LevelKey(h.root.key, lk.list, v.prices[lk.list][p]) && Rung(h, lk.list, v.prices[lk.list], p)
  {
    lk := LevelOf(h.orders[rk]);
    i := IndexOf(v.queue[lk], rk.id);
    p := IndexOf(v.prices[lk.list], lk.price);
    assert OwnLevel(h, v, lk) && Queue(h, lk, v.queue[lk]) && Ladder(h, lk.list, v.prices[lk.list]);
    assert Node(h, lk, v.queue[lk], i);
  }

  lemma NodeChecks(h: Heap, v: View, k: Key, i: nat)
    requires Linked(h, v) && k in v.queue && i < |v.queue[k]|
    ensures var ok := OrderKey(h.root.key, v.queue[k][i]);
      && ok in h.orders
      && OrderCheck(h, ok) == (h.orders[ok].locked > 0)
      && h.orders[ok].id == v.queue[k][i]
      && h.orders[ok].priceLevel == k && h.orders[ok].list == k.list && h.orders[ok].price == k.price
      && h.orders[ok].previous == OrderLink(h.root.key, Before(v.queue[k], i))
      && h.orders[ok].next == OrderLink(h.root.key, After(v.queue[k], i))
  {
    assert OwnLevel(h, v, k) && Queue(h, k, v.queue[k]) && Ladder(h, k.list, v.prices[k.list]);
    assert Node(h, k, v.queue[k], i);
    BackedCovers(h.root, h.orders[OrderKey(h.root.key, v.queue[k][i])]);
  }

  lemma QueueEnds(h: Heap, v: View, k: Key)
    requires Linked(h, v) && k in v.queue
    ensures k in h.levels && Ascending(v.queue[k]) && |v.queue[k]| == h.levels[k].count > 0
    ensures h.levels[k].first == Some(OrderKey(h.root.key, v.queue[k][0]))
    ensures h.levels[k].last == Some(OrderKey(h.root.key, v.queue[k][|v.queue[k]| - 1]))
  {
    assert OwnLevel(h, v, k) && Queue(h, k, v.queue[k]);
  }

  lemma LevelChecks(h: Heap, v: View, k: Key)
    requires Linked(h, v) && k in v.queue
    ensures LevelCheck(h, k)
    ensures k.LevelKey? && k.book == h.root.key && h.levels[k].count == |v.queue[k]|
    ensures h.levels[k].list == k.list && h.levels[k].price == k.price
    ensures h.levels[k].total == SumRemaining(h.orders, h.root.key, v.queue[k])
  {
    assert OwnLevel(h, v, k) && Queue(h, k, v.queue[k]) && Ladder(h, k.list, v.prices[k.list]);
    assert Node(h, k, v.queue[k], 0);
  }

  lemma RungChecks(h: Heap, v: View, l: ListId, p: nat)
    requires Linked(h, v) && l in v.prices && p < |v.prices[l]|
    ensures LevelKey(h.root.key, l, v.prices[l][p]) in v.queue
    ensures Rung(h, l, v.prices[l], p)
  {
    assert Ladder(h, l, v.prices[l]);
    assert Rung(h, l, v.prices[l], p);
  }

  lemma TotalExceeds(h: Heap, v: View, k: Key, i: nat)
    requires Linked(h, v) && k in v.queue && i < |v.queue[k]|
    ensures var rest := SumRemaining(h.orders, h.root.key, DropAt(v.queue[k], i));
      && SumRemaining(h.orders, h.root.key, v.queue[k]) == rest + RemainingOf(h.orders, h.root.key, v.queue[k][i])
      && (rest == 0 <==> |v.queue[k]| == 1)
  {
    var q := v.queue[k];
    SumDropAt(h.orders, h.root.key, q, i);
    if |q| > 1 {
      var j := if i == 0 then 1 else 0;
      assert DropAt(q, i)[0] == q[j];
      assert OwnLevel(h, v, k) && Queue(h, k, q);
      assert Node(h, k, q, j);
    }
  }

  /** What the checks read off the removed order's FIFO neighbours, from its place in the view. */
  lemma PreviousFits(h: Heap, v: View, rk: Key, lk: Key, i: nat)
    requires Linked(h, v) && lk in v.queue && i < |v.queue[lk]| && rk == OrderKey(h.root.key, v.queue[lk][i])
    ensures rk in h.orders && lk in h.levels
    ensures var o := h.orders[rk];
      && (h.levels[lk].first == Some(rk)) == o.previous.None? == (i == 0)
      && (PositiveLock(h, o.previous) <==> PreviousCheck(h, rk, o, o.previous))
      && (o.previous.Some? ==> o.previous.value in h.orders)
  {
    hide Linked, OrderCheck;
    QueueEnds(h, v, lk);
    NodeChecks(h, v, lk, i);
    if i > 0 { NodeChecks(h, v, lk, i - 1); }
  }

  lemma NextFits(h: Heap, v: View, rk: Key, lk: Key, i: nat)
    requires Linked(h, v) && lk in v.queue && i < |v.queue[lk]| && rk == OrderKey(h.root.key, v.queue[lk][i])
    ensures rk in h.orders && lk in h.levels
    ensures var o := h.orders[rk];
      && (h.levels[lk].last == Some(rk)) == o.next.None? == (i + 1 == |v.queue[lk]|)
      && (PositiveLock(h, o.next) <==> NextCheck(h, rk, o, o.next))
      && (o.next.Some? ==> o.next.value in h.orders)
  {
    hide Linked, OrderCheck;
    QueueEnds(h, v, lk);
    NodeChecks(h, v, lk, i);
    if i + 1 < |v.queue[lk]| { NodeChecks(h, v, lk, i + 1); }
  }

  lemma LadderCheck(h: Heap, v: View, lk: Key, p: nat)
    requires Linked(h, v) && lk in v.queue && lk.LevelKey? && lk.list in v.prices
    requires p < |v.prices[lk.list]| && lk == LevelKey(h.root.key, lk.list, v.prices[lk.list][p])
    ensures lk in h.levels && h.levels[lk].list == lk.list && Legal(h.root.kind, lk.list)
    ensures var l := h.levels[lk];
      && HeadCheck(h.root, l)
      && BetterCheck(h, l, LevelLink(h.root.key, lk.list, l.better))
      && WorseCheck(h, l, LevelLink(h.root.key, lk.list, l.worse))
      && (l.better.Some? ==> LevelKey(h.root.key, lk.list, l.better.value) in h.levels)
      && (l.worse.Some? ==> LevelKey(h.root.key, lk.list, l.worse.value) in h.levels)
  {
    var ps := v.prices[lk.list];
    assert Ladder(h, lk.list, ps) && Rung(h, lk.list, ps, p);
    LevelChecks(h, v, lk);
    if p > 0 {
      RungChecks(h, v, lk.list, p - 1);
      LevelChecks(h, v, LevelKey(h.root.key, lk.list, ps[p - 1]));
    }
    if p + 1 < |ps| {
      RungChecks(h, v, lk.list, p + 1);
      LevelChecks(h, v, LevelKey(h.root.key, lk.list, ps[p + 1]));
    }
  }

  lemma OpenCountPositive(h: Heap, v: View, rk: Key)
    requires WellFormed(h, v) && rk in h.orders && rk.book == h.root.key && h.orders[rk].status.Open?
    ensures h.root.open >= 1
  {
    assert rk == OrderKey(h.root.key, rk.id) && OpenAt(h.orders, h.root.key, rk.id);
    CountWitness(h.orders, h.root.key, h.root.nextId, rk.id);
  }

  lemma {:induction false} CountWitness(orders: map<Key, Order>, book: Pubkey, n: u64, x: u64)
    requires x < n && OpenAt(orders, book, x)
    ensures CountOpen(orders, book, n) >= 1
  {
    if x < n - 1 { CountWitness(orders, book, n - 1, x); }
  }

  /** On a well-formed heap `remove_order` accepts an open order with exactly the hints `cancelShared` chooses. */
  lemma ChecksAcceptExactlyClientHints(h: Heap, v: View, rk: Key, lk: Key, hints: Hints)
    requires WellFormed(h, v) && rk in h.orders
    ensures RemoveChecks(h, rk, lk, hints) <==>
      && rk.book == h.root.key && h.orders[rk].status.Open? && LocksPositive(h, rk)
      && lk == h.orders[rk].priceLevel && lk in h.levels && hints == ClientHints(h, rk)
    ensures rk.book == h.root.key && h.orders[rk].status.Open? ==> Detachable(h, rk)
  {
    hide Linked, NoStray;
    if rk.book == h.root.key && h.orders[rk].status.Open? {
      var k, i, p := StandingAt(h, v, rk);
      NodeChecks(h, v, k, i);
      PreviousFits(h, v, rk, k, i);
      NextFits(h, v, rk, k, i);
      LadderCheck(h, v, k, p);
      LevelChecks(h, v, k);
      TotalExceeds(h, v, k, i);
      OpenCountPositive(h, v, rk);
    }
  }

  // --------------------------------------------------- the repair is the deletion

  /** The orders of h' are those of h with the queue member q[i] spliced out. */
  ghost predicate Spliced(h: Heap, h': Heap, k: Key, q: seq<u64>, i: nat)
    requires k.LevelKey? && i < |q|
  {
    && h'.root.key == h.root.key && h'.root.decimals == h.root.decimals && h'.root.nextId == h.root.nextId
    && Ascending(q)
    && Node(h, k, q, i)
    && (i > 0 ==> Node(h, k, q, i - 1))
    && (i + 1 < |q| ==> Node(h, k, q, i + 1))
    && h'.orders == OrdersDetached(h.orders, h.orders[OrderKey(h.root.key, q[i])])
  }

  lemma SoundWithLinks(root: Root, root': Root, o: Order, previous: Option<Key>, next: Option<Key>)
    requires Sound(root, o) && root'.decimals == root.decimals && root'.nextId == root.nextId
    ensures Sound(root', o.(previous := previous, next := next))
  {
  }

  lemma DetachedNode(h: Heap, h': Heap, k: Key, q: seq<u64>, i: nat, j: nat)
    requires k.LevelKey? && i < |q| && j + 1 < |q| && Spliced(h, h', k, q, i)
    requires Node(h, k, q, if j < i then j else j + 1)
    ensures Node(h', k, DropAt(q, i), j)
  {
    hide Sound;
    var m := if j < i then j else j + 1;
    assert q[m] != q[i] && DropAt(q, i)[j] == q[m];
    var key := OrderKey(h.root.key, q[m]);
    SoundWithLinks(h.root, h'.root, h.orders[key], h'.orders[key].previous, h'.orders[key].next);
    if j + 1 == i {
      assert After(DropAt(q, i), j) == After(q, i);
    } else if j == i {
      assert Before(DropAt(q, i), j) == Before(q, i);
    }
  }

  lemma SpliceKeepsOther(h: Heap, h': Heap, k: Key, q: seq<u64>, i: nat, id: u64)
    requires k.LevelKey? && i < |q| && Spliced(h, h', k, q, i)
    requires OrderKey(h.root.key, id) in h.orders && h.orders[OrderKey(h.root.key, id)].priceLevel != k
    ensures SameOrder(h.orders, h'.orders, OrderKey(h.root.key, id))
  {
  }

  lemma SpliceKeepsRemaining(h: Heap, h': Heap, k: Key, q: seq<u64>, i: nat, ids: seq<u64>)
    requires k.LevelKey? && i < |q| && Spliced(h, h', k, q, i)
    ensures SumRemaining(h'.orders, h.root.key, ids) == SumRemaining(h.orders, h.root.key, ids)
  {
    SumFrame(h.orders, h'.orders, h.root.key, ids);
  }

  lemma DetachedQueue(h: Heap, h': Heap, k: Key, q: seq<u64>, i: nat)
    requires k.LevelKey? && Queue(h, k, q) && i < |q| && |q| > 1 && Spliced(h, h', k, q, i)
    requires h.orders[OrderKey(h.root.key, q[i])].remaining <= h.levels[k].total
    requires k in h'.levels && h'.levels[k] == LevelDetached(h.levels[k], h.orders[OrderKey(h.root.key, q[i])])
    ensures Queue(h', k, DropAt(q, i))
  {
    var q' := DropAt(q, i);
    hide Spliced;
    forall j | 0 <= j < |q'| ensures Node(h', k, q', j) {
      assert Node(h, k, q, if j < i then j else j + 1);
      DetachedNode(h, h', k, q, i, j);
    }
    SumDropAt(h.orders, h.root.key, q, i);
    SpliceKeepsRemaining(h, h', k, q, i, q');
    DetachedEnds(h, h', k, q, i);
  }

  lemma DetachedEnds(h: Heap, h': Heap, k: Key, q: seq<u64>, i: nat)
    requires k.LevelKey? && Queue(h, k, q) && i < |q| && |q| > 1 && Spliced(h, h', k, q, i)
    requires h.orders[OrderKey(h.root.key, q[i])].remaining <= h.levels[k].total
    requires k in h'.levels && h'.levels[k] == LevelDetached(h.levels[k], h.orders[OrderKey(h.root.key, q[i])])
    ensures h'.root.key == h.root.key && Ascending(DropAt(q, i))
    ensures h'.levels[k].first == Some(OrderKey(h.root.key, DropAt(q, i)[0]))
    ensures h'.levels[k].last == Some(OrderKey(h.root.key, DropAt(q, i)[|q| - 2]))
  {
  }

  lemma SplicedOtherQueue(h: Heap, h': Heap, lk: Key, lq: seq<u64>, i: nat, k: Key, q: seq<u64>)
    requires lk.LevelKey? && i < |lq| && Spliced(h, h', lk, lq, i)
    requires k.LevelKey? && k != lk && Queue(h, k, q) && SameQueueEnds(h, h', k)
    ensures Queue(h', k, q)
  {
    forall id <- q ensures SameOrder(h.orders, h'.orders, OrderKey(h.root.key, id)) {
      assert Node(h, k, q, IndexOf(q, id));
      SpliceKeepsOther(h, h', lk, lq, i, id);
    }
    hide Spliced;
    QueueFrame(h, h', k, q);
  }

  /** The levels and heads of h' are those of h with the empty level ps[p] unlinked. */
  ghost predicate Unhooked(h: Heap, h': Heap, l: ListId, ps: seq<u64>, p: nat)
    requires p < |ps|
  {
    && Legal(h.root.kind, l)
    && Ranked(l.side, ps)
    && Rung(h, l, ps, p)
    && (p > 0 ==> Rung(h, l, ps, p - 1))
    && (p + 1 < |ps| ==> Rung(h, l, ps, p + 1))
    && var lvl := h.levels[LevelKey(h.root.key, l, ps[p])];
    && lvl.list == l && lvl.price == ps[p]
    && h'.levels == LevelsUnlinked(h.levels, h.root.key, lvl)
    && h'.root.key == h.root.key && h'.root.kind == h.root.kind
    && h'.root.best == BestUnlinked(h.root, lvl).best
  }

  lemma UnhookedRung(h: Heap, h': Heap, l: ListId, ps: seq<u64>, p: nat, j: nat)
    requires p < |ps| && j + 1 < |ps| && Unhooked(h, h', l, ps, p)
    requires Rung(h, l, ps, if j < p then j else j + 1)
    ensures Rung(h', l, DropAt(ps, p), j)
  {
    var m := if j < p then j else j + 1;
    assert ps[m] != ps[p] && DropAt(ps, p)[j] == ps[m];
    if j + 1 == p {
      assert After(DropAt(ps, p), j) == After(ps, p);
    } else if j == p {
      assert Before(DropAt(ps, p), j) == Before(ps, p);
    }
  }

  lemma UnhookedLadder(h: Heap, h': Heap, l: ListId, ps: seq<u64>, p: nat)
    requires p < |ps| && Unhooked(h, h', l, ps, p) && Ladder(h, l, ps)
    ensures Ladder(h', l, DropAt(ps, p))
  {
    var ps' := DropAt(ps, p);
    forall j | 0 <= j < |ps'| ensures Rung(h', l, ps', j) {
      assert Rung(h, l, ps, if j < p then j else j + 1);
      UnhookedRung(h, h', l, ps, p, j);
    }
    assert Head(ps') == if p == 0 then After(ps, 0) else Head(ps);
  }

  lemma UnhookKeepsOther(h: Heap, h': Heap, l: ListId, ps: seq<u64>, p: nat, k: Key)
    requires p < |ps| && Unhooked(h, h', l, ps, p)
    requires k in h.levels && k != LevelKey(h.root.key, l, ps[p])
    ensures SameQueueEnds(h, h', k)
    ensures !k.LevelKey? || k.list != l || k.book != h.root.key ==> SameLinks(h, h', k) && h'.levels[k] == h.levels[k]
  {
  }

  lemma UnhookedOtherLadder(h: Heap, h': Heap, l: ListId, ps: seq<u64>, p: nat, l': ListId, ps': seq<u64>)
    requires p < |ps| && Unhooked(h, h', l, ps, p) && l' != l && Ladder(h, l', ps')
    ensures Ladder(h', l', ps')
  {
    SlotInjective(h.root.kind, l, l');
    forall x <- ps' ensures SameLinks(h, h', LevelKey(h.root.key, l', x)) {
      assert Rung(h, l', ps', IndexOf(ps', x));
      UnhookKeepsOther(h, h', l, ps, p, LevelKey(h.root.key, l', x));
    }
    LadderFrame(h, h', l', ps');
  }

  lemma DetachKeepsIdentity(orders: map<Key, Order>, o: Order, k: Key)
    requires o.previous.Some? ==> o.previous.value in orders
    requires o.next.Some? ==> o.next.value in orders
    ensures k in OrdersDetached(orders, o) <==> k in orders
    ensures k in orders ==>
      var a := orders[k]; var b := OrdersDetached(orders, o)[k];
      b == a.(previous := b.previous, next := b.next)
  {
  }

  lemma UnlinkKeepsIdentity(levels: map<Key, Level>, book: Pubkey, l: Level, k: Key)
    requires l.better.Some? ==> LevelKey(book, l.list, l.better.value) in levels
    requires l.worse.Some? ==> LevelKey(book, l.list, l.worse.value) in levels
    ensures k in LevelsUnlinked(levels, book, l) <==> k in levels && k != LevelKey(book, l.list, l.price)
    ensures k in LevelsUnlinked(levels, book, l) ==>
      var a := levels[k]; var b := LevelsUnlinked(levels, book, l)[k];
      b == a.(better := b.better, worse := b.worse)
  {
  }

  lemma DetachedCanonical(h: Heap, rk: Key)
    requires Canonical(h) && Detachable(h, rk)
    ensures Canonical(Detached(h, rk))
    ensures Detached(h, rk).orders.Keys == h.orders.Keys
    ensures Detached(h, rk).levels.Keys <= h.levels.Keys
  {
    var h' := Detached(h, rk);
    var o := h.orders[rk];
    var l := h.levels[o.priceLevel];
    forall k {:trigger k in h'.orders}
      ensures k in h'.orders <==> k in h.orders
      ensures k in h'.orders ==> h'.orders[k].book == h.orders[k].book && h'.orders[k].id == h.orders[k].id
    {
      DetachKeepsIdentity(h.orders, o, k);
    }
    forall k {:trigger k in h'.levels} | k in h'.levels
      ensures k in h.levels && h'.levels[k].book == h.levels[k].book && h'.levels[k].list == h.levels[k].list
        && h'.levels[k].price == h.levels[k].price
    {
      if l.count == 1 { UnlinkKeepsIdentity(h.levels, h.root.key, l, k); }
    }
  }

  lemma DropSingleton<T>(s: seq<T>, x: T, i: nat)
    requires i < |s| && s[i] == x && Distinct(s)
    ensures Without(s, x) == DropAt(s, i)
    ensures forall y :: y in DropAt(s, i) <==> y in s && y != x
  {
    IndexOfAt(s, i);
    forall y | y in s && y != x ensures y in DropAt(s, i) {
      var j := IndexOf(s, y);
      assert DropAt(s, i)[if j < i then j else j - 1] == y;
    }
  }

  lemma SplicedByDetach(h: Heap, v: View, rk: Key, lk: Key, i: nat)
    requires Linked(h, v) && lk in v.queue && i < |v.queue[lk]| && rk == OrderKey(h.root.key, v.queue[lk][i])
    requires Detachable(h, rk)
    ensures lk.LevelKey? && h.orders[rk].priceLevel == lk && h.orders[rk].id == rk.id
    ensures Spliced(h, Detached(h, rk), lk, v.queue[lk], i)
  {
    var q := v.queue[lk];
    assert OwnLevel(h, v, lk) && Queue(h, lk, q) && Node(h, lk, q, i);
    if i > 0 { assert Node(h, lk, q, i - 1); }
    if i + 1 < |q| { assert Node(h, lk, q, i + 1); }
  }

  lemma InsideLadders(h: Heap, h': Heap, v: View, lk: Key)
    requires Linked(h, v) && lk in h.levels && lk in h'.levels
    requires h'.root == h.root.(open := h'.root.open) && h'.levels == h.levels[lk := h'.levels[lk]]
    requires h'.levels[lk].better == h.levels[lk].better && h'.levels[lk].worse == h.levels[lk].worse
    ensures Ladders(h', v.prices)
  {
    forall l <- v.prices ensures Ladder(h', l, v.prices[l]) {
      forall x <- v.prices[l] ensures SameLinks(h, h', LevelKey(h.root.key, l, x)) {
        RungChecks(h, v, l, IndexOf(v.prices[l], x));
      }
      LadderFrame(h, h', l, v.prices[l]);
    }
  }

  lemma InsideQueues(h: Heap, h': Heap, v: View, lk: Key, i: nat)
    requires Linked(h, v) && lk in v.queue && lk.LevelKey? && i < |v.queue[lk]| && |v.queue[lk]| > 1
    requires Spliced(h, h', lk, v.queue[lk], i)
    requires h'.root == h.root.(open := h'.root.open)
    requires h.orders[OrderKey(h.root.key, v.queue[lk][i])].remaining <= h.levels[lk].total
    requires h'.levels == h.levels[lk := LevelDetached(h.levels[lk], h.orders[OrderKey(h.root.key, v.queue[lk][i])])]
    ensures Queues(h', View(v.prices, v.queue[lk := DropAt(v.queue[lk], i)]))
  {
    var v' := View(v.prices, v.queue[lk := DropAt(v.queue[lk], i)]);
    hide Spliced, OnGrid;
    forall k <- v'.queue ensures OwnLevel(h', v', k) && Queue(h', k, v'.queue[k]) {
      assert OwnLevel(h, v, k) && Queue(h, k, v.queue[k]);
      if k == lk {
        DetachedQueue(h, h', lk, v.queue[lk], i);
      } else {
        SplicedOtherQueue(h, h', lk, v.queue[lk], i, k, v.queue[k]);
      }
    }
  }

  /** What removing one of several orders does to the root and to the level. */
  lemma DetachedInsideShape(h: Heap, rk: Key)
    requires Detachable(h, rk) && h.levels[h.orders[rk].priceLevel].count > 1
    ensures var h', lk := Detached(h, rk), h.orders[rk].priceLevel;
      && h'.root == h.root.(open := h'.root.open)
      && h'.levels == h.levels[lk := LevelDetached(h.levels[lk], h.orders[rk])]
      && h'.levels[lk].better == h.levels[lk].better && h'.levels[lk].worse == h.levels[lk].worse
      && h.orders[rk].remaining <= h.levels[lk].total
  {
  }

  /** Removing one of several orders at a price: only that queue and its level's counters change. */
  lemma DetachInsideQueue(h: Heap, v: View, rk: Key, lk: Key, i: nat)
    requires Linked(h, v) && lk in v.queue && i < |v.queue[lk]| && rk == OrderKey(h.root.key, v.queue[lk][i])
    requires Detachable(h, rk) && |v.queue[lk]| > 1
    ensures Linked(Detached(h, rk), View(v.prices, v.queue[lk := DropAt(v.queue[lk], i)]))
  {
    hide Spliced, Canonical, Ladders, Queues, Detached, Detachable, LevelCheck;
    SplicedByDetach(h, v, rk, lk, i);
    LevelChecks(h, v, lk);
    DetachedCanonical(h, rk);
    DetachedInsideShape(h, rk);
    InsideLadders(h, Detached(h, rk), v, lk);
    InsideQueues(h, Detached(h, rk), v, lk, i);
  }

  lemma UnhookedByDetach(h: Heap, v: View, rk: Key, lk: Key, p: nat)
    requires Linked(h, v) && lk in v.queue && |v.queue[lk]| == 1 && rk == OrderKey(h.root.key, v.queue[lk][0])
    requires lk.LevelKey? && lk.list in v.prices && p < |v.prices[lk.list]| && lk == LevelKey(h.root.key, lk.list, v.prices[lk.list][p])
    requires Detachable(h, rk) && h.orders[rk].priceLevel == lk
    ensures Unhooked(h, Detached(h, rk), lk.list, v.prices[lk.list], p)
    ensures h.levels[lk].count == 1
  {
    var ps := v.prices[lk.list];
    assert Ladder(h, lk.list, ps);
    LevelChecks(h, v, lk);
    RungChecks(h, v, lk.list, p);
    if p > 0 { RungChecks(h, v, lk.list, p - 1); }
    if p + 1 < |ps| { RungChecks(h, v, lk.list, p + 1); }
  }

  lemma UnhookedLadders(h: Heap, h': Heap, v: View, l: ListId, p: nat)
    requires Linked(h, v) && l in v.prices && p < |v.prices[l]| && Unhooked(h, h', l, v.prices[l], p)
    ensures Ladders(h', v.prices[l := DropAt(v.prices[l], p)])
  {
    hide Unhooked;
    forall l' | l' in v.prices
      ensures Ladder(h', l', if l' == l then DropAt(v.prices[l], p) else v.prices[l'])
    {
      assert Ladder(h, l', v.prices[l']);
      if l' == l {
        UnhookedLadder(h, h', l, v.prices[l], p);
      } else {
        UnhookedOtherLadder(h, h', l, v.prices[l], p, l', v.prices[l']);
      }
    }
  }

  lemma UnhookedQueues(h: Heap, h': Heap, v: View, lk: Key, p: nat)
    requires Linked(h, v) && lk in v.queue && |v.queue[lk]| == 1
    requires lk.LevelKey? && lk.list in v.prices && p < |v.prices[lk.list]| && lk == LevelKey(h.root.key, lk.list, v.prices[lk.list][p])
    requires Unhooked(h, h', lk.list, v.prices[lk.list], p)
    requires Spliced(h, h', lk, v.queue[lk], 0)
    requires h'.root.tick == h.root.tick && h'.root.payout == h.root.payout
    ensures Queues(h', View(v.prices[lk.list := DropAt(v.prices[lk.list], p)], v.queue - {lk}))
  {
    var l := lk.list;
    var ps := v.prices[l];
    var v' := View(v.prices[l := DropAt(ps, p)], v.queue - {lk});
    assert Ladder(h, l, ps);
    DropSingleton(ps, ps[p], p);
    assert h'.root.kind == h.root.kind && h'.root.key == h.root.key;
    forall k <- v'.queue ensures OwnLevel(h', v', k) && Queue(h', k, v'.queue[k]) {
      assert OwnLevel(h, v, k) && Queue(h, k, v.queue[k]);
      hide Spliced, Unhooked, OnGrid, Ladder;
      UnhookKeepsOther(h, h', l, ps, p, k);
      SplicedOtherQueue(h, h', lk, v.queue[lk], 0, k, v.queue[k]);
      OnGridFrame(h.root, h'.root, k.price);
    }
  }

  lemma OnGridFrame(r: Root, r': Root, price: nat)
    requires r'.kind == r.kind && r'.tick == r.tick && r'.payout == r.payout
    ensures OnGrid(r', price) == OnGrid(r, price)
  {
  }

  /** Removing the only order at a price: its level leaves the ladder, nothing else moves. */
  lemma DetachLastOrder(h: Heap, v: View, rk: Key, lk: Key, p: nat)
    requires Linked(h, v) && lk in v.queue && |v.queue[lk]| == 1 && rk == OrderKey(h.root.key, v.queue[lk][0])
    requires lk.LevelKey? && lk.list in v.prices && p < |v.prices[lk.list]| && lk == LevelKey(h.root.key, lk.list, v.prices[lk.list][p])
    requires Detachable(h, rk)
    ensures Linked(Detached(h, rk), View(v.prices[lk.list := DropAt(v.prices[lk.list], p)], v.queue - {lk}))
  {
    hide Spliced, Unhooked, Canonical, Ladders, Queues, LevelCheck;
    SplicedByDetach(h, v, rk, lk, 0);
    UnhookedByDetach(h, v, rk, lk, p);
    DetachedCanonical(h, rk);
    LevelChecks(h, v, lk);
    LevelsGone(h, rk);
    UnhookedLadders(h, Detached(h, rk), v, lk.list, p);
    UnhookedQueues(h, Detached(h, rk), v, lk, p);
  }

  lemma LevelsGone(h: Heap, rk: Key)
    requires Detachable(h, rk) && h.levels[h.orders[rk].priceLevel].count == 1
    ensures h.orders[rk].priceLevel !in Detached(h, rk).levels
    ensures Detached(h, rk).root == h.root.(open := h.root.open - 1, best := Detached(h, rk).root.best)
  {
  }

  /**
   * Deletion is exact: after `remove_order` on an open order the accounts represent the old view minus that order,
   * and its level is gone exactly when it held no other order.
   */
  lemma RemovalIsDeletion(h: Heap, v: View, rk: Key)
    requires WellFormed(h, v)
    requires rk in h.orders && rk.book == h.root.key && h.orders[rk].status.Open?
    ensures Detachable(h, rk) && Stands(v, h.orders[rk].priceLevel, rk.id)
    ensures Linked(Detached(h, rk), Deleted(v, h.orders[rk].priceLevel, rk.id))
    ensures Detached(h, rk).root.open == h.root.open - 1
    ensures h.orders[rk].priceLevel in Detached(h, rk).levels <==> |v.queue[h.orders[rk].priceLevel]| > 1
  {
    var lk, i, p := StandingAt(h, v, rk);
    ChecksAcceptExactlyClientHints(h, v, rk, lk, ClientHints(h, rk));
    LevelChecks(h, v, lk);
    QueueEnds(h, v, lk);
    assert Ladder(h, lk.list, v.prices[lk.list]);
    hide Linked, NoStray, Ladder;
    DropSingleton(v.queue[lk], rk.id, i);
    if |v.queue[lk]| > 1 {
      DetachInsideQueue(h, v, rk, lk, i);
    } else {
      DropSingleton(v.prices[lk.list], lk.price, p);
      DetachLastOrder(h, v, rk, lk, p);
    }
  }
}
