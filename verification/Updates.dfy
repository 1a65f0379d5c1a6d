/** The other changes a book instruction makes: retiring a removed order, filling a head in part, and resting a new order. */
module Updates {
  import opened Base
  import opened Settlement
  import opened BookHeap
  import opened Removal

  // ------------------------------------------------------------ retiring an order

  /** The heap after the caller of `remove_order` also rewrites the removed order's own record. */
  ghost function Retired(h: Heap, rk: Key, o': Order): Heap
    requires Detachable(h, rk)
  {
    var h1 := Detached(h, rk);
    Heap(h1.root, h1.orders[rk := o'], h1.levels)
  }

  lemma DeletedQueues(h: Heap, v: View, rk: Key, k: Key, id: u64)
    requires WellFormed(h, v)
    requires rk in h.orders && rk.book == h.root.key && h.orders[rk].status.Open?
    ensures Stands(v, h.orders[rk].priceLevel, rk.id)
    ensures InQueue(Deleted(v, h.orders[rk].priceLevel, rk.id), k, id)
      <==> InQueue(v, k, id) && (id != rk.id || k != h.orders[rk].priceLevel)
  {
    hide Linked, NoStray;
    var lk, i, p := StandingAt(h, v, rk);
    QueueEnds(h, v, lk);
    DropSingleton(v.queue[lk], rk.id, i);
    if |v.queue[lk]| == 1 { assert v.queue[lk] == [rk.id]; }
  }

  lemma QueueWithoutRetired(h: Heap, h': Heap, v: View, rk: Key, k: Key)
    requires rk.OrderKey? && rk.book == h.root.key && k.LevelKey? && k in v.queue && rk.id !in v.queue[k]
    requires Queue(h, k, v.queue[k])
    requires h'.root == h.root && h'.levels == h.levels && rk in h'.orders
    requires h'.orders == h.orders[rk := h'.orders[rk]]
    ensures Queue(h', k, v.queue[k])
  {
    forall id <- v.queue[k] ensures SameOrder(h.orders, h'.orders, OrderKey(h.root.key, id)) {
      assert Node(h, k, v.queue[k], IndexOf(v.queue[k], id));
    }
    QueueFrame(h, h', k, v.queue[k]);
  }

  /** Replacing a record that stands in no queue keeps the lists represented. */
  lemma ReplaceOutsideQueues(h: Heap, h': Heap, v: View, rk: Key)
    requires Linked(h, v) && rk.OrderKey? && rk.book == h.root.key && rk in h.orders
    requires forall k <- v.queue :: rk.id !in v.queue[k]
    requires h'.root == h.root && h'.levels == h.levels && rk in h'.orders && h'.orders == h.orders[rk := h'.orders[rk]]
    requires h'.orders[rk].book == rk.book && h'.orders[rk].id == rk.id
    ensures Linked(h', v)
  {
    forall l <- v.prices ensures Ladder(h', l, v.prices[l]) {
      forall x <- v.prices[l] ensures SameLinks(h, h', LevelKey(h.root.key, l, x)) {
        RungChecks(h, v, l, IndexOf(v.prices[l], x));
      }
      LadderFrame(h, h', l, v.prices[l]);
    }
    forall k <- v.queue ensures OwnLevel(h', v, k) && Queue(h', k, v.queue[k]) {
      assert OwnLevel(h, v, k) && Queue(h, k, v.queue[k]);
      hide OnGrid;
      QueueWithoutRetired(h, h', v, rk, k);
    }
    hide Ladders, Queues;
  }

  /** Cancelling or completely filling an order: the book is well formed and equals the old one minus that order. */
  lemma RetireKeepsWellFormed(h: Heap, v: View, rk: Key, o': Order)
    requires WellFormed(h, v)
    requires rk in h.orders && rk.book == h.root.key && h.orders[rk].status.Open?
    requires o'.book == rk.book && o'.id == rk.id && !o'.status.Open?
    ensures Detachable(h, rk) && Stands(v, h.orders[rk].priceLevel, rk.id)
    ensures WellFormed(Retired(h, rk, o'), Deleted(v, h.orders[rk].priceLevel, rk.id))
  {
    RemovalIsDeletion(h, v, rk);
    var lk := h.orders[rk].priceLevel;
    var v' := Deleted(v, lk, rk.id);
    var h1 := Detached(h, rk);
    var h' := Retired(h, rk, o');
    DetachedCanonical(h, rk);
    forall k <- v'.queue ensures rk.id !in v'.queue[k] {
      if rk.id in v'.queue[k] {
        assert InQueue(v', k, rk.id);
        DeletedQueues(h, v, rk, k, rk.id);
        QueuesDisjoint(h, v, k, lk, rk.id);
        assert false;
      }
    }
    ReplaceOutsideQueues(h1, h', v', rk);
    RetireKeepsNoStray(h, v, rk, o');
    RetireKeepsCount(h, v, rk, o');
  }

  lemma BookCanonical(h: Heap, v: View)
    requires Linked(h, v)
    ensures Canonical(h)
  {
  }

  lemma RetireKeepsNoStray(h: Heap, v: View, rk: Key, o': Order)
    requires WellFormed(h, v)
    requires rk in h.orders && rk.book == h.root.key && h.orders[rk].status.Open? && Detachable(h, rk)
    requires Stands(v, h.orders[rk].priceLevel, rk.id)
    requires o'.book == rk.book && o'.id == rk.id && !o'.status.Open?
    ensures NoStray(Retired(h, rk, o'), Deleted(v, h.orders[rk].priceLevel, rk.id))
  {
    hide Linked, InQueue, Deleted, Stands;
    var lk := h.orders[rk].priceLevel;
    var v' := Deleted(v, lk, rk.id);
    var h' := Retired(h, rk, o');
    BookCanonical(h, v);
    DetachedCanonical(h, rk);
    forall k <- h'.orders | k.book == h'.root.key
      ensures k.OrderKey? && 0 < k.id < h'.root.nextId
      ensures h'.orders[k].status.Open? ==> InQueue(v', LevelOf(h'.orders[k]), k.id)
    {
      DetachKeepsIdentity(h.orders, h.orders[rk], k);
      if h'.orders[k].status.Open? {
        DeletedQueues(h, v, rk, LevelOf(h.orders[k]), k.id);
      }
    }
  }

  lemma RetireKeepsCount(h: Heap, v: View, rk: Key, o': Order)
    requires WellFormed(h, v)
    requires rk in h.orders && rk.book == h.root.key && h.orders[rk].status.Open? && Detachable(h, rk)
    requires !o'.status.Open?
    ensures var h' := Retired(h, rk, o'); h'.root.open == CountOpen(h'.orders, h'.root.key, h'.root.nextId)
  {
    hide Linked;
    var h' := Retired(h, rk, o');
    assert rk.OrderKey? && rk.id < h.root.nextId;
    hide WellFormed, Linked, NoStray;
    forall id: u64 | id != rk.id
      ensures OpenAt(h.orders, h.root.key, id) == OpenAt(h'.orders, h.root.key, id)
    {
      DetachKeepsIdentity(h.orders, h.orders[rk], OrderKey(h.root.key, id));
    }
    CountFlip(h.orders, h'.orders, h.root.key, h.root.nextId, rk.id);
  }

  // ------------------------------------------------------------- partial fills

  ghost predicate Fillable(h: Heap, rk: Key, fill: nat, debit: nat) {
    && rk in h.orders
    && h.orders[rk].priceLevel in h.levels
    && fill < h.orders[rk].remaining && debit <= h.orders[rk].locked
    && fill <= h.levels[h.orders[rk].priceLevel].total
  }

  /** The maker keeps its place; its remainder, its lock and the level total shrink. */
  ghost function PartlyFilled(h: Heap, rk: Key, fill: nat, debit: nat): Heap
    requires Fillable(h, rk, fill, debit)
  {
    var o := h.orders[rk];
    var l := h.levels[o.priceLevel];
    Heap(h.root, h.orders[rk := o.(remaining := o.remaining - fill, locked := o.locked - debit)],
         h.levels[o.priceLevel := l.(total := l.total - fill)])
  }

  lemma PartlyFilledQueue(h: Heap, k: Key, q: seq<u64>, i: nat, rk: Key, fill: nat, debit: nat)
    requires k.LevelKey? && Queue(h, k, q) && i < |q| && rk == OrderKey(h.root.key, q[i])
    requires Fillable(h, rk, fill, debit) && h.orders[rk].priceLevel == k
    requires Backed(k.list.side, h.root.decimals, k.price, h.orders[rk].remaining - fill, h.orders[rk].locked - debit)
    ensures Queue(PartlyFilled(h, rk, fill, debit), k, q)
  {
    var h' := PartlyFilled(h, rk, fill, debit);
    hide Backed;
    forall j | 0 <= j < |q| ensures Node(h', k, q, j) {
      assert Node(h, k, q, j);
      assert j != i ==> q[j] != q[i];
    }
    assert Ascending(q);
    PartlyFilledSum(h.orders, h'.orders, h.root.key, q, i, fill);
  }

  lemma PartlyFilledSum(a: map<Key, Order>, b: map<Key, Order>, book: Pubkey, q: seq<u64>, i: nat, fill: nat)
    requires Distinct(q) && i < |q|
    requires RemainingOf(a, book, q[i]) == RemainingOf(b, book, q[i]) + fill
    requires forall id: u64 | id != q[i] :: RemainingOf(a, book, id) == RemainingOf(b, book, id)
    ensures SumRemaining(a, book, q) == SumRemaining(b, book, q) + fill
  {
    SumDropAt(a, book, q, i);
    SumDropAt(b, book, q, i);
    DropSingleton(q, q[i], i);
    SumFrame(a, b, book, DropAt(q, i));
  }

  lemma PartlyFilledQueues(h: Heap, v: View, lk: Key, i: nat, rk: Key, fill: nat, debit: nat)
    requires Linked(h, v) && lk in v.queue && lk.LevelKey? && i < |v.queue[lk]| && rk == OrderKey(h.root.key, v.queue[lk][i])
    requires Fillable(h, rk, fill, debit) && h.orders[rk].priceLevel == lk
    requires Backed(lk.list.side, h.root.decimals, lk.price, h.orders[rk].remaining - fill, h.orders[rk].locked - debit)
    ensures Queues(PartlyFilled(h, rk, fill, debit), v)
  {
    var h' := PartlyFilled(h, rk, fill, debit);
    hide OnGrid, Ladder, Backed;
    forall k <- v.queue ensures OwnLevel(h', v, k) && Queue(h', k, v.queue[k]) {
      assert OwnLevel(h, v, k) && Queue(h, k, v.queue[k]);
      if k == lk {
        PartlyFilledQueue(h, lk, v.queue[lk], i, rk, fill, debit);
      } else {
        forall id <- v.queue[k] ensures SameOrder(h.orders, h'.orders, OrderKey(h.root.key, id)) {
          assert Node(h, k, v.queue[k], IndexOf(v.queue[k], id));
        }
        QueueFrame(h, h', k, v.queue[k]);
      }
    }
  }

  lemma PartialFillKeepsWellFormed(h: Heap, v: View, rk: Key, fill: nat, debit: nat)
    requires WellFormed(h, v) && rk in h.orders && rk.book == h.root.key && h.orders[rk].status.Open?
    requires fill < h.orders[rk].remaining && debit <= h.orders[rk].locked
    requires var o := h.orders[rk];
      Backed(o.list.side, h.root.decimals, o.price, o.remaining - fill, o.locked - debit)
    ensures Fillable(h, rk, fill, debit) && WellFormed(PartlyFilled(h, rk, fill, debit), v)
  {
    hide Ladders, Queues, Backed, OrderCheck, LevelCheck;
    var lk, i, p := StandingAt(h, v, rk);
    TotalExceeds(h, v, lk, i);
    LevelChecks(h, v, lk);
    NodeChecks(h, v, lk, i);
    InsideLadders(h, PartlyFilled(h, rk, fill, debit), v, lk);
    PartlyFilledQueues(h, v, lk, i, rk, fill, debit);
    PartlyFilledRest(h, v, rk, fill, debit);
  }

  lemma PartlyFilledRest(h: Heap, v: View, rk: Key, fill: nat, debit: nat)
    requires WellFormed(h, v) && rk in h.orders && rk.book == h.root.key && Fillable(h, rk, fill, debit)
    ensures var h' := PartlyFilled(h, rk, fill, debit);
      && Canonical(h') && NoStray(h', v) && h'.levels.Keys == h.levels.Keys
      && h'.root.open == CountOpen(h'.orders, h'.root.key, h'.root.nextId)
  {
    hide Ladders, Queues;
    CountFrame(h.orders, PartlyFilled(h, rk, fill, debit).orders, h.root.key, h.root.nextId);
  }
}
