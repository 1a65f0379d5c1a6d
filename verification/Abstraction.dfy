/** The accounts determine the book a reader sees, and which open orders the program can still remove. */
module Abstraction {
  import opened Base
  import opened Settlement
  import opened BookHeap
  import opened Removal

  /** Following `worse` links from the best price can only give one price list. */
  lemma {:induction false} SamePrices(h: Heap, l: ListId, a: seq<u64>, b: seq<u64>, n: nat)
    requires Ladder(h, l, a) && Ladder(h, l, b) && n <= |a|
    ensures n <= |b| && a[..n] == b[..n]
  {
    if n > 0 {
      SamePrices(h, l, a, b, n - 1);
      if n == 1 {
        assert Head(a) == Head(b);
      } else {
        assert Rung(h, l, a, n - 2) && Rung(h, l, b, n - 2);
        assert a[n - 2] == a[..n - 1][n - 2] && b[n - 2] == b[..n - 1][n - 2];
      }
      assert a[..n] == a[..n - 1] + [a[n - 1]] && b[..n] == b[..n - 1] + [b[n - 1]];
    }
  }

  /** Following `next` links from the first order can only give one queue. */
  lemma {:induction false} SameQueue(h: Heap, k: Key, a: seq<u64>, b: seq<u64>, n: nat)
    requires k.LevelKey? && Queue(h, k, a) && Queue(h, k, b) && n <= |a|
    ensures n <= |b| && a[..n] == b[..n]
  {
    if n > 0 {
      SameQueue(h, k, a, b, n - 1);
      if n > 1 {
        assert Node(h, k, a, n - 2) && Node(h, k, b, n - 2);
        assert a[n - 2] == a[..n - 1][n - 2] && b[n - 2] == b[..n - 1][n - 2];
      }
      assert a[..n] == a[..n - 1] + [a[n - 1]] && b[..n] == b[..n - 1] + [b[n - 1]];
    }
  }

  lemma PricesUnique(h: Heap, a: View, b: View)
    requires Linked(h, a) && Linked(h, b)
    ensures a.prices == b.prices
  {
    hide Queues, Ladder, Canonical;
    assert a.prices.Keys == b.prices.Keys;
    forall l <- a.prices ensures a.prices[l] == b.prices[l] {
      assert Ladder(h, l, a.prices[l]) && Ladder(h, l, b.prices[l]);
      SamePrices(h, l, a.prices[l], b.prices[l], |a.prices[l]|);
      SamePrices(h, l, b.prices[l], a.prices[l], |b.prices[l]|);
    }
  }

  lemma QueuedLevel(h: Heap, v: View, k: Key)
    requires Linked(h, v)
    ensures k in v.queue <==> k in h.levels && k.book == h.root.key
    ensures k in v.queue ==> k.LevelKey? && Queue(h, k, v.queue[k])
  {
    if k in v.queue {
      assert OwnLevel(h, v, k) && Queue(h, k, v.queue[k]);
    }
  }

  /** The abstract book is a function of the accounts: two readings of the same heap are the same. */
  lemma ViewIsUnique(h: Heap, a: View, b: View)
    requires Linked(h, a) && Linked(h, b)
    ensures a == b
  {
    hide Linked, Queue;
    PricesUnique(h, a, b);
    forall k ensures k in a.queue <==> k in b.queue {
      QueuedLevel(h, a, k);
      QueuedLevel(h, b, k);
    }
    assert a.queue.Keys == b.queue.Keys;
    forall k <- a.queue ensures a.queue[k] == b.queue[k] {
      QueuedLevel(h, a, k);
      QueuedLevel(h, b, k);
      SameQueue(h, k, a.queue[k], b.queue[k], |a.queue[k]|);
      SameQueue(h, k, b.queue[k], a.queue[k], |b.queue[k]|);
    }
  }

  lemma OpenTerms(h: Heap, v: View, rk: Key)
    requires WellFormed(h, v) && rk in h.orders && rk.book == h.root.key && h.orders[rk].status.Open?
    ensures var o := h.orders[rk];
      && o.price > 0 && o.remaining > 0 && Backed(o.list.side, h.root.decimals, o.price, o.remaining, o.locked)
  {
    var lk, i, p := StandingAt(h, v, rk);
    assert OwnLevel(h, v, lk);
  }

  /** `order()` refuses a zero lock; an open order can only have one as a bid whose remainder is worth less than an atom. */
  lemma ZeroLockOnlyOnDustBids(h: Heap, v: View, rk: Key)
    requires WellFormed(h, v) && rk in h.orders && rk.book == h.root.key && h.orders[rk].status.Open?
    ensures var o := h.orders[rk];
      o.locked == 0 ==> o.list.side.Bid? && h.root.decimals > 0 && Notional(h.root.decimals, o.price, o.remaining) == 0
  {
    OpenTerms(h, v, rk);
    var o := h.orders[rk];
    MulPositive(o.price, o.remaining);
  }

  /** So every open order of a prediction book can be removed with exactly the client's hints. */
  lemma PredictionOrdersRemovable(h: Heap, v: View, rk: Key)
    requires WellFormed(h, v) && h.root.kind.PredictionKind?
    requires rk in h.orders && rk.book == h.root.key && h.orders[rk].status.Open?
    ensures h.orders[rk].priceLevel in h.levels && RemoveChecks(h, rk, h.orders[rk].priceLevel, ClientHints(h, rk))
  {
    var lk, i, p := StandingAt(h, v, rk);
    PredictionScale(h, v);
    LevelChecks(h, v, lk);
    ZeroLockOnlyOnDustBids(h, v, rk);
    NeighbourOpen(h, v, lk, i);
    hide WellFormed, RemoveChecks, OrderCheck, LevelCheck;
    if h.orders[rk].previous.Some? { ZeroLockOnlyOnDustBids(h, v, h.orders[rk].previous.value); }
    if h.orders[rk].next.Some? { ZeroLockOnlyOnDustBids(h, v, h.orders[rk].next.value); }
    ChecksAcceptExactlyClientHints(h, v, rk, lk, ClientHints(h, rk));
  }

  lemma PredictionScale(h: Heap, v: View)
    requires WellFormed(h, v) && h.root.kind.PredictionKind?
    ensures h.root.decimals == 0
  {
  }

  lemma QueuedOpen(h: Heap, v: View, lk: Key, i: nat)
    requires WellFormed(h, v) && lk in v.queue && i < |v.queue[lk]|
    ensures var rk := OrderKey(h.root.key, v.queue[lk][i]);
      && rk in h.orders && h.orders[rk].status.Open?
      && h.orders[rk].previous == OrderLink(h.root.key, Before(v.queue[lk], i))
      && h.orders[rk].next == OrderLink(h.root.key, After(v.queue[lk], i))
  {
    assert Queue(h, lk, v.queue[lk]) by { assert OwnLevel(h, v, lk); }
    assert Node(h, lk, v.queue[lk], i);
    hide WellFormed, Backed;
  }

  lemma NeighbourOpen(h: Heap, v: View, lk: Key, i: nat)
    requires WellFormed(h, v) && lk in v.queue && i < |v.queue[lk]|
    ensures var rk := OrderKey(h.root.key, v.queue[lk][i]);
      && rk in h.orders
      && var o := h.orders[rk];
      && (o.previous.Some? ==> o.previous.value in h.orders && o.previous.value.book == h.root.key && h.orders[o.previous.value].status.Open?)
      && (o.next.Some? ==> o.next.value in h.orders && o.next.value.book == h.root.key && h.orders[o.next.value].status.Open?)
  {
    hide WellFormed;
    QueuedOpen(h, v, lk, i);
    if i > 0 { QueuedOpen(h, v, lk, i - 1); }
    if i + 1 < |v.queue[lk]| { QueuedOpen(h, v, lk, i + 1); }
  }
}
