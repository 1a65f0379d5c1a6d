/**
 * `planBoundedMatches`: walk an unmodified snapshot with nested loops over levels and FIFO queues, re-checking every
 * link on the way. On a well-formed side it computes exactly the same walk as the overlay simulation.
 */
module SnapshotPlan {
  import opened Base
  import opened Settlement
  import opened BookHeap
  import opened Removal
  import opened Walk
  import opened Ledger
  import PredictionPlan

  datatype SnapStep = SnapStep(maker: Key, level: Key, owner: Pubkey, price: u64, next: Option<Key>, worse: Option<Key>,
                               recipient: Option<Pubkey>, before: nat, fill: nat)

  datatype SnapPlan = SnapPlan(steps: seq<SnapStep>, remaining: nat, stop: Stop)

  /** The checks on a level, in source order. */
  predicate LevelReadable(h: Heap, l: ListId, price: u64, expectedBetter: Option<u64>) {
    var k := LevelKey(h.root.key, l, price);
    && k in h.levels
    && var level := h.levels[k];
    && level.book == h.root.key && level.list == l && level.price == price
    && level.better == expectedBetter
    && (expectedBetter.Some? ==> Precedes(l.side, expectedBetter.value, level.price))
    && level.first.Some? && level.last.Some? && level.count != 0 && level.total != 0
  }

  /** The checks on a maker order. */
  predicate MakerReadable(h: Heap, l: ListId, price: u64, k: Key, expectedPrevious: Option<Key>) {
    && k in h.orders
    && var o := h.orders[k];
    && o.book == h.root.key && o.priceLevel == LevelKey(h.root.key, l, price) && o.list.side == l.side && o.price == price
    && o.status.Open? && o.previous == expectedPrevious && o.remaining != 0
  }

  // ------------------------------------------------------------- the specification

  ghost predicate SameStep(h: Heap, l: ListId, s: SnapStep, t: Taken, before: int) {
    && s.maker == t.maker.key && s.owner == t.maker.owner && s.price == t.maker.price
    && s.level == LevelKey(h.root.key, l, t.maker.price)
    && Route(s.next, s.worse, s.recipient) == RouteOf(t.maker, t.base)
    && s.fill == t.base && s.before == before
  }

  ghost predicate SameSteps(h: Heap, l: ListId, steps: seq<SnapStep>, fills: seq<Taken>, quantity: nat) {
    && |steps| == |fills|
    && forall i {:trigger steps[i]} :: 0 <= i < |steps| ==> SameStep(h, l, steps[i], fills[i], quantity - Total(fills[..i]))
  }

  ghost predicate NoSelf(taker: Pubkey, fills: seq<Taken>) {
    forall t <- fills :: t.maker.owner != taker
  }

  /** The plan is the walk; it is refused exactly when the walk meets one of the taker's own orders. */
  ghost predicate SnapAgrees(h: Heap, v: View, l: ListId, taker: Pubkey, limit: nat, quantity: nat, cap: nat, r: Option<SnapPlan>)
    requires l in v.prices
  {
    var side, makers := Opposite(l.side), Flat(h, v, l);
    var fills := Fills(side, limit, makers, quantity, cap);
    && r.Some? == NoSelf(taker, fills)
    && (r.Some? ==>
          && SameSteps(h, l, r.value.steps, fills, quantity)
          && r.value.remaining == Leftover(side, limit, makers, quantity, cap)
          && r.value.stop == StopReason(side, limit, Rest(side, limit, makers, quantity, cap), r.value.remaining))
  }

  // ---------------------------------------------------------------- the frontier

  /** The makers from order j of level p onwards. */
  function Suffix(h: Heap, l: ListId, ps: seq<u64>, queue: map<Key, seq<u64>>, p: nat, j: nat): seq<Maker>
    requires p <= |ps|
  {
    if p == |ps| then []
    else
      var q := QueueAt(queue, LevelKey(h.root.key, l, ps[p]));
      QueueMakers(h, if j <= |q| then q[j..] else []) + FlatLevels(h, l, ps[p + 1..], queue)
  }

  /** The traversal stands before order j of level p, having taken `done`. */
  ghost predicate Frontier(h: Heap, v: View, l: ListId, taker: Pubkey, limit: nat, quantity: nat, cap: nat, p: nat, j: nat,
                           remaining: nat, steps: seq<SnapStep>, done: seq<Taken>)
  {
    && WellFormed(h, v) && l in v.prices
    && p <= |v.prices[l]|
    && (p < |v.prices[l]| ==> LevelKey(h.root.key, l, v.prices[l][p]) in v.queue && j < |v.queue[LevelKey(h.root.key, l, v.prices[l][p])]|)
    && (p == |v.prices[l]| ==> j == 0)
    && Reaches(Opposite(l.side), limit, Flat(h, v, l), quantity, cap, done, Suffix(h, l, v.prices[l], v.queue, p, j), remaining)
    && SameSteps(h, l, steps, done, quantity)
    && NoSelf(taker, done)
  }

  ghost predicate LevelsSeen(book: Pubkey, l: ListId, ps: seq<u64>, p: nat, seen: set<Key>)
    requires p <= |ps|
  {
    forall k <- seen :: k.LevelKey? && k.book == book && k.list == l && k.price in ps[..p]
  }

  /** Orders seen so far stand at earlier levels, or earlier in this one. */
  ghost predicate OrdersSeen(h: Heap, seen: set<Key>, levels: set<Key>, lk: Key, id: nat) {
    forall k <- seen :: k.OrderKey? && k in h.orders
      && (h.orders[k].priceLevel in levels || (h.orders[k].priceLevel == lk && k.id < id))
  }

  lemma SuffixStart(h: Heap, v: View, l: ListId)
    requires l in v.prices
    ensures Suffix(h, l, v.prices[l], v.queue, 0, 0) == Flat(h, v, l)
  {
    var ps := v.prices[l];
    if ps != [] {
      var q := QueueAt(v.queue, LevelKey(h.root.key, l, ps[0]));
      assert q[0..] == q;
    }
  }

  lemma NextLevel(h: Heap, l: ListId, ps: seq<u64>, queue: map<Key, seq<u64>>, p: nat)
    requires p < |ps|
    ensures FlatLevels(h, l, ps[p + 1..], queue) == Suffix(h, l, ps, queue, p + 1, 0)
  {
    hide MakerOf, QueueMakers;
    if p + 1 < |ps| {
      var q := QueueAt(queue, LevelKey(h.root.key, l, ps[p + 1]));
      assert q[0..] == q && ps[p + 1..][1..] == ps[p + 2..];
    }
  }

  /** The first maker at the frontier, and what follows it. */
  lemma SuffixStep(h: Heap, l: ListId, ps: seq<u64>, queue: map<Key, seq<u64>>, p: nat, j: nat)
    requires p < |ps|
    requires var q := QueueAt(queue, LevelKey(h.root.key, l, ps[p])); j < |q|
    ensures var q := QueueAt(queue, LevelKey(h.root.key, l, ps[p]));
      var s := Suffix(h, l, ps, queue, p, j);
      && s != [] && s[0] == MakerOf(h, OrderKey(h.root.key, q[j]))
      && s[1..] == if j + 1 < |q| then Suffix(h, l, ps, queue, p, j + 1) else Suffix(h, l, ps, queue, p + 1, 0)
  {
    hide MakerOf, FlatLevels;
    var q := QueueAt(queue, LevelKey(h.root.key, l, ps[p]));
    assert q[j..][0] == q[j] && q[j..][1..] == q[j + 1..];
    NextLevel(h, l, ps, queue, p);
    if j + 1 == |q| {
      assert QueueMakers(h, q[j + 1..]) == [];
    }
  }

  lemma FrontierStarts(h: Heap, v: View, l: ListId, taker: Pubkey, limit: nat, quantity: nat, cap: nat)
    requires WellFormed(h, v) && l in v.prices
    ensures Frontier(h, v, l, taker, limit, quantity, cap, 0, 0, quantity, [], [])
    ensures Legal(h.root.kind, l) && Best(h.root, l) == Head(v.prices[l])
  {
    hide WellFormed, Flat, Reaches, Suffix;
    SuffixStart(h, v, l);
    ReachesStart(Opposite(l.side), limit, Flat(h, v, l), quantity, cap);
    FlatEmpty(h, v, l);
    if v.prices[l] != [] { var lk, rk := HeadFacts(h, v, l); }
  }

  /** A level of the side passes every level check and is met for the first time. */
  lemma LevelAhead(h: Heap, v: View, l: ListId, p: nat, seen: set<Key>)
    requires WellFormed(h, v) && l in v.prices && p < |v.prices[l]| && LevelsSeen(h.root.key, l, v.prices[l], p, seen)
    ensures var ps := v.prices[l];
      var lk := LevelKey(h.root.key, l, ps[p]);
      && LevelReadable(h, l, ps[p], Before(ps, p))
      && lk in h.levels && lk in v.queue && v.queue[lk] != []
      && h.levels[lk].first == Some(OrderKey(h.root.key, v.queue[lk][0])) && h.levels[lk].worse == After(ps, p)
      && h.levels[lk].last == Some(OrderKey(h.root.key, v.queue[lk][|v.queue[lk]| - 1]))
      && h.levels[lk].count == |v.queue[lk]| && h.levels[lk].total == SumRemaining(h.orders, h.root.key, v.queue[lk])
      && lk !in seen
      && LevelsSeen(h.root.key, l, ps, p + 1, seen + {lk})
  {
    var ps := v.prices[l];
    var lk := LevelKey(h.root.key, l, ps[p]);
    assert Ladder(h, l, ps) by { assert Ladders(h, v.prices); }
    hide WellFormed, Linked;
    RungChecks(h, v, l, p);
    LevelChecks(h, v, lk);
    QueueEnds(h, v, lk);
    LevelTotal(h, v, lk);
    assert ps[..p + 1] == ps[..p] + [ps[p]];
    forall k <- seen + {lk} ensures k.LevelKey? && k.book == h.root.key && k.list == l && k.price in ps[..p + 1] {
      if k in seen { assert k.price in ps[..p]; }
    }
  }

  lemma LevelTotal(h: Heap, v: View, lk: Key)
    requires WellFormed(h, v) && lk in v.queue
    ensures lk in h.levels && h.levels[lk].total > 0
  {
    LevelChecks(h, v, lk);
  }

  /** The order at the frontier passes every maker check, and what it carries is visible to the planners. */
  lemma MakerReads(h: Heap, v: View, l: ListId, p: nat, j: nat)
    requires WellFormed(h, v) && l in v.prices && p < |v.prices[l]|
    requires var lk := LevelKey(h.root.key, l, v.prices[l][p]); lk in v.queue && j < |v.queue[lk]|
    ensures var lk := LevelKey(h.root.key, l, v.prices[l][p]);
      var q := v.queue[lk];
      var k := OrderKey(h.root.key, q[j]);
      && MakerReadable(h, l, v.prices[l][p], k, OrderLink(h.root.key, Before(q, j)))
      && k in h.orders && h.orders[k].next == OrderLink(h.root.key, After(q, j)) && h.orders[k].list == l && h.orders[k].priceLevel == lk
      && lk in h.levels
      && MakerOf(h, k) == Maker(k, h.orders[k].owner, v.prices[l][p], h.orders[k].remaining, OrderLink(h.root.key, After(q, j)),
                                LevelLink(h.root.key, l, After(v.prices[l], p)), h.levels[lk].rentPayer)
  {
    hide Linked, NoStray, Backed, Queue;
    var lk := LevelKey(h.root.key, l, v.prices[l][p]);
    RungChecks(h, v, l, p);
    LevelChecks(h, v, lk);
    QueueNode(h, v, lk, j);
  }

  lemma QueueNode(h: Heap, v: View, lk: Key, j: nat)
    requires Linked(h, v) && lk in v.queue && j < |v.queue[lk]|
    ensures lk.LevelKey? && Node(h, lk, v.queue[lk], j)
    ensures Canonical(h)
  {
    assert OwnLevel(h, v, lk) && Queue(h, lk, v.queue[lk]);
  }

  /** ... and is met for the first time. */
  lemma MakerAhead(h: Heap, v: View, l: ListId, p: nat, j: nat, seen: set<Key>, levels: set<Key>)
    requires WellFormed(h, v) && l in v.prices && p < |v.prices[l]|
    requires LevelsSeen(h.root.key, l, v.prices[l], p, levels)
    requires var lk := LevelKey(h.root.key, l, v.prices[l][p]);
      lk in v.queue && j < |v.queue[lk]| && OrdersSeen(h, seen, levels, lk, v.queue[lk][j])
    ensures var lk := LevelKey(h.root.key, l, v.prices[l][p]);
      var q := v.queue[lk];
      var k := OrderKey(h.root.key, q[j]);
      && k !in seen
      && (j + 1 < |q| ==> OrdersSeen(h, seen + {k}, levels, lk, q[j + 1]))
      && OrdersSeen(h, seen + {k}, levels + {lk}, lk, 0)
  {
    hide Linked, NoStray, MakerReadable;
    var ps := v.prices[l];
    var lk := LevelKey(h.root.key, l, ps[p]);
    QueueEnds(h, v, lk);
    MakerReads(h, v, l, p, j);
    RankedPrices(h, v, l);
    assert lk !in levels;
  }

  /** What the head of the suffix is, and where the traversal goes from a completely filled order. */
  lemma FrontierHead(h: Heap, v: View, l: ListId, p: nat, j: nat)
    requires WellFormed(h, v) && l in v.prices && p < |v.prices[l]|
    requires var lk := LevelKey(h.root.key, l, v.prices[l][p]); lk in v.queue && j < |v.queue[lk]|
    ensures var ps := v.prices[l];
      var q := v.queue[LevelKey(h.root.key, l, ps[p])];
      var s := Suffix(h, l, ps, v.queue, p, j);
      && s != [] && s[0] == MakerOf(h, OrderKey(h.root.key, q[j])) && s[0].price == ps[p] && s[0].remaining > 0
      && s[1..] == (if j + 1 < |q| then Suffix(h, l, ps, v.queue, p, j + 1) else Suffix(h, l, ps, v.queue, p + 1, 0))
      && (p + 1 < |ps| ==> LevelKey(h.root.key, l, ps[p + 1]) in v.queue && v.queue[LevelKey(h.root.key, l, ps[p + 1])] != [])
  {
    hide Suffix, MakerOf;
    SuffixStep(h, l, v.prices[l], v.queue, p, j);
    QueuedMaker(h, v, LevelKey(h.root.key, l, v.prices[l][p]), j);
    if p + 1 < |v.prices[l]| {
      RungChecks(h, v, l, p + 1);
      QueueEnds(h, v, LevelKey(h.root.key, l, v.prices[l][p + 1]));
    }
    hide WellFormed;
  }

  lemma QueuedMaker(h: Heap, v: View, lk: Key, j: nat)
    requires WellFormed(h, v) && lk in v.queue && j < |v.queue[lk]|
    ensures lk.LevelKey?
    ensures var m := MakerOf(h, OrderKey(h.root.key, v.queue[lk][j])); m.price == lk.price && m.remaining > 0
  {
    assert Node(h, lk, v.queue[lk], j) by { assert OwnLevel(h, v, lk) && Queue(h, lk, v.queue[lk]); }
    hide WellFormed, Backed;
  }

  lemma StepsExtend(h: Heap, l: ListId, steps: seq<SnapStep>, done: seq<Taken>, quantity: nat, s: SnapStep, t: Taken)
    requires SameSteps(h, l, steps, done, quantity) && SameStep(h, l, s, t, quantity - Total(done))
    ensures SameSteps(h, l, steps + [s], done + [t], quantity)
  {
    hide SameStep;
    forall i | 0 <= i < |steps| + 1 ensures SameStep(h, l, (steps + [s])[i], (done + [t])[i], quantity - Total((done + [t])[..i])) {
      assert (done + [t])[..i] == done[..i];
      assert done[..|done|] == done;
      if i < |steps| { assert SameStep(h, l, steps[i], done[i], quantity - Total(done[..i])); }
    }
  }

  ghost predicate AtLevel(h: Heap, v: View, l: ListId, taker: Pubkey, limit: nat, quantity: nat, cap: nat, p: nat, remaining: nat,
                          steps: seq<SnapStep>, done: seq<Taken>, currentPrice: Option<u64>, expectedBetter: Option<u64>,
                          levels: set<Key>, orders: set<Key>)
  {
    && Frontier(h, v, l, taker, limit, quantity, cap, p, 0, remaining, steps, done)
    && currentPrice == (if p < |v.prices[l]| then Some(v.prices[l][p]) else None)
    && expectedBetter == (if p == 0 then None else Some(v.prices[l][p - 1]))
    && LevelsSeen(h.root.key, l, v.prices[l], p, levels)
    && OrdersSeen(h, orders, levels, LevelKey(h.root.key, l, 0), 0)
  }

  ghost predicate AtOrder(h: Heap, v: View, l: ListId, taker: Pubkey, limit: nat, quantity: nat, cap: nat, p: nat, j: nat, remaining: nat,
                          steps: seq<SnapStep>, done: seq<Taken>, k: Option<Key>, expectedPrevious: Option<Key>, count: nat, total: nat,
                          levels: set<Key>, orders: set<Key>)
  {
    && Frontier(h, v, l, taker, limit, quantity, cap, p, j, remaining, steps, done)
    && p < |v.prices[l]|
    && LevelsSeen(h.root.key, l, v.prices[l], p, levels)
    && var lk := LevelKey(h.root.key, l, v.prices[l][p]);
    var q := v.queue[lk];
    && OrdersSeen(h, orders, levels, lk, q[j])
    && k == Some(OrderKey(h.root.key, q[j]))
    && expectedPrevious == OrderLink(h.root.key, Before(q, j))
    && count == |q| - j
    && total == SumRemaining(h.orders, h.root.key, q[j..])
  }

  lemma WalkStarts(h: Heap, v: View, l: ListId, taker: Pubkey, limit: nat, quantity: nat, cap: nat)
    requires WellFormed(h, v) && l in v.prices && Legal(h.root.kind, l)
    ensures AtLevel(h, v, l, taker, limit, quantity, cap, 0, quantity, [], [], Best(h.root, l), None, {}, {})
  {
    hide WellFormed, Frontier;
    FrontierStarts(h, v, l, taker, limit, quantity, cap);
  }

  /** Entering a level: its checks pass, and the traversal stands before its first order. */
  lemma EnterLevel(h: Heap, v: View, l: ListId, taker: Pubkey, limit: nat, quantity: nat, cap: nat, p: nat, remaining: nat,
                   steps: seq<SnapStep>, done: seq<Taken>, price: u64, expectedBetter: Option<u64>, levels: set<Key>, orders: set<Key>)
    requires AtLevel(h, v, l, taker, limit, quantity, cap, p, remaining, steps, done, Some(price), expectedBetter, levels, orders)
    ensures var lk := LevelKey(h.root.key, l, price);
      && l in v.prices && p < |v.prices[l]| && v.prices[l][p] == price
      && lk !in levels && LevelReadable(h, l, price, expectedBetter)
      && AtOrder(h, v, l, taker, limit, quantity, cap, p, 0, remaining, steps, done, h.levels[lk].first, None, h.levels[lk].count,
                 h.levels[lk].total, levels, orders)
  {
    LevelAhead(h, v, l, p, levels) by { hide WellFormed; }
    hide WellFormed, Reaches, LevelReadable;
    var q := v.queue[LevelKey(h.root.key, l, price)];
    assert q[0..] == q;
  }

  /** Where the traversal stops for want of a crossing maker, the plan is complete. */
  lemma StopsHere(h: Heap, v: View, l: ListId, taker: Pubkey, limit: nat, quantity: nat, cap: nat, p: nat, remaining: nat,
                  steps: seq<SnapStep>, done: seq<Taken>, currentPrice: Option<u64>, expectedBetter: Option<u64>, levels: set<Key>, orders: set<Key>)
    requires AtLevel(h, v, l, taker, limit, quantity, cap, p, remaining, steps, done, currentPrice, expectedBetter, levels, orders)
    requires remaining > 0
    requires currentPrice.Some? ==> !PricesCross(Opposite(l.side), limit, currentPrice.value)
    ensures SnapAgrees(h, v, l, taker, limit, quantity, cap,
                       Some(SnapPlan(steps, remaining, if currentPrice.None? then BookExhausted else NonCrossing)))
  {
    hide WellFormed, Flat, Reaches, SameSteps, Fills, Leftover, Rest, LevelsSeen, OrdersSeen, PricesCross;
    var ps := v.prices[l];
    if p < |ps| {
      FrontierHead(h, v, l, p, 0);
    }
    ReachesStop(Opposite(l.side), limit, Flat(h, v, l), quantity, cap, done, Suffix(h, l, ps, v.queue, p, 0), remaining);
  }

  // ----------------------------------------------------------------- taking a maker

  function StepFor(h: Heap, l: ListId, k: Key, before: nat, fill: nat, removes: bool): SnapStep
    requires k in h.orders && h.orders[k].priceLevel in h.levels
  {
    var o := h.orders[k];
    var level := h.levels[o.priceLevel];
    SnapStep(k, o.priceLevel, o.owner, o.price,
             if fill == o.remaining && !removes then o.next else None,
             if removes then LevelLink(h.root.key, l, level.worse) else None,
             if removes then Some(level.rentPayer) else None,
             before, fill)
  }

  /** How the traversal classifies the boundary when the cap is reached. */
  function CapStop(side: Side, limit: nat, maker: Order, level: Level): Stop {
    if maker.next.Some? then MatchCap
    else if level.worse.None? then BookExhausted
    else if PricesCross(side, limit, level.worse.value) then MatchCap
    else NonCrossing
  }

  lemma QueueTail(h: Heap, q: seq<u64>, j: nat)
    requires j < |q|
    ensures SumRemaining(h.orders, h.root.key, q[j..]) == RemainingOf(h.orders, h.root.key, q[j]) + SumRemaining(h.orders, h.root.key, q[j + 1..])
  {
    assert q[j..][0] == q[j] && q[j..][1..] == q[j + 1..];
  }

  /** What the traversal reads at an order of a well-formed side, and where the counters stand after it. */
  lemma MakerFacts(h: Heap, v: View, l: ListId, taker: Pubkey, limit: nat, quantity: nat, cap: nat, p: nat, j: nat, remaining: nat,
                   steps: seq<SnapStep>, done: seq<Taken>, k: Key, expectedPrevious: Option<Key>, count: nat, total: nat,
                   levels: set<Key>, orders: set<Key>)
    requires AtOrder(h, v, l, taker, limit, quantity, cap, p, j, remaining, steps, done, Some(k), expectedPrevious, count, total, levels, orders)
    ensures k !in orders && MakerReadable(h, l, v.prices[l][p], k, expectedPrevious)
    ensures k in h.orders && LevelKey(h.root.key, l, v.prices[l][p]) in h.levels && h.orders[k].priceLevel == LevelKey(h.root.key, l, v.prices[l][p])
    ensures var o, level := h.orders[k], h.levels[h.orders[k].priceLevel];
      var q := v.queue[o.priceLevel];
      && o.list == l && level.list == l && level.worse == After(v.prices[l], p) && o.next == OrderLink(h.root.key, After(q, j))
      && MakerOf(h, k) == Maker(k, o.owner, o.price, o.remaining, o.next, LevelLink(h.root.key, l, level.worse), level.rentPayer)
      && o.remaining <= total && o.remaining > 0 && count > 0
      && (count == 1 <==> o.next.None?) && (count == 1 ==> level.last == Some(k) && total == o.remaining)
      && (j + 1 < |q| ==> total - o.remaining == SumRemaining(h.orders, h.root.key, q[j + 1..]))
  {
    hide Frontier, OrdersSeen, LevelsSeen, MakerReadable, LevelReadable, MakerOf;
    FrontierBasics(h, v, l, taker, limit, quantity, cap, p, j, remaining, steps, done);
    hide WellFormed;
    var q := v.queue[LevelKey(h.root.key, l, v.prices[l][p])];
    LevelAhead(h, v, l, p, levels);
    MakerAhead(h, v, l, p, j, orders, levels);
    MakerReads(h, v, l, p, j);
    QueueTail(h, q, j);
    QueuedMaker(h, v, LevelKey(h.root.key, l, v.prices[l][p]), j);
    assert q[|q|..] == [];
    ReadableMaker(h, l, v.prices[l][p], k, expectedPrevious);
  }

  lemma ReadableMaker(h: Heap, l: ListId, price: u64, k: Key, expectedPrevious: Option<Key>)
    requires MakerReadable(h, l, price, k, expectedPrevious)
    ensures k in h.orders && h.orders[k].priceLevel == LevelKey(h.root.key, l, price) && h.orders[k].price == price
  {
  }

  lemma FrontierBasics(h: Heap, v: View, l: ListId, taker: Pubkey, limit: nat, quantity: nat, cap: nat, p: nat, j: nat,
                       remaining: nat, steps: seq<SnapStep>, done: seq<Taken>)
    requires Frontier(h, v, l, taker, limit, quantity, cap, p, j, remaining, steps, done)
    ensures WellFormed(h, v) && l in v.prices && p <= |v.prices[l]|
    ensures p < |v.prices[l]| ==> LevelKey(h.root.key, l, v.prices[l][p]) in v.queue && j < |v.queue[LevelKey(h.root.key, l, v.prices[l][p])]|
  {
  }

  /** The walk takes the order at the frontier next; if it is the taker's own, the plan must be refused. */
  lemma TakeAt(h: Heap, v: View, l: ListId, taker: Pubkey, limit: nat, quantity: nat, cap: nat, p: nat, j: nat, remaining: nat,
               steps: seq<SnapStep>, done: seq<Taken>, k: Key, step: SnapStep)
    requires Frontier(h, v, l, taker, limit, quantity, cap, p, j, remaining, steps, done)
    requires p < |v.prices[l]| && k == OrderKey(h.root.key, v.queue[LevelKey(h.root.key, l, v.prices[l][p])][j])
    requires remaining > 0 && |steps| < cap && PricesCross(Opposite(l.side), limit, v.prices[l][p])
    ensures k == MakerOf(h, k).key
    ensures var m := MakerOf(h, k);
      var base := Min(remaining, m.remaining);
      var t := Taken(m, base);
      var q := v.queue[LevelKey(h.root.key, l, v.prices[l][p])];
      var rest := if j + 1 < |q| then Suffix(h, l, v.prices[l], v.queue, p, j + 1) else Suffix(h, l, v.prices[l], v.queue, p + 1, 0);
      && (m.owner == taker ==> SnapAgrees(h, v, l, taker, limit, quantity, cap, None))
      && (m.owner != taker && SameStep(h, l, step, t, remaining) ==>
            && SameSteps(h, l, steps + [step], done + [t], quantity)
            && NoSelf(taker, done + [t])
            && Reaches(Opposite(l.side), limit, Flat(h, v, l), quantity, cap, done + [t],
                       Advance(Suffix(h, l, v.prices[l], v.queue, p, j), base), remaining - base)
            && (base == m.remaining ==> Advance(Suffix(h, l, v.prices[l], v.queue, p, j), base) == rest))
  {
    hide WellFormed, Flat, SameStep, Fills, Leftover, Rest, Suffix, PricesCross, MakerOf;
    var ps := v.prices[l];
    FrontierHead(h, v, l, p, j);
    var s := Suffix(h, l, ps, v.queue, p, j);
    ReachesStep(Opposite(l.side), limit, Flat(h, v, l), quantity, cap, done, s, remaining);
    hide Reaches;
    var m := MakerOf(h, k);
    var t := Taken(m, Min(remaining, m.remaining));
    KeyOfMaker(h, k);
    if m.owner == taker {
      assert t in Fills(Opposite(l.side), limit, Flat(h, v, l), quantity, cap);
    } else if SameStep(h, l, step, t, remaining) {
      ReachesTotal(Opposite(l.side), limit, Flat(h, v, l), quantity, cap, done, s, remaining);
      StepsExtend(h, l, steps, done, quantity, step, t);
    }
  }

  lemma KeyOfMaker(h: Heap, k: Key)
    ensures MakerOf(h, k).key == k
  {
  }

  lemma ReachesTotal(side: Side, limit: nat, makers: seq<Maker>, quantity: nat, cap: nat, done: seq<Taken>, rest: seq<Maker>, remaining: nat)
    requires Reaches(side, limit, makers, quantity, cap, done, rest, remaining)
    ensures Total(done) + remaining == quantity && |done| <= cap
  {
  }

  lemma StepIsSame(h: Heap, l: ListId, k: Key, before: nat, fill: nat, removes: bool)
    requires k in h.orders && h.orders[k].priceLevel in h.levels && h.orders[k].priceLevel == LevelKey(h.root.key, l, h.orders[k].price)
    requires h.orders[k].list == l
    requires fill <= h.orders[k].remaining && removes == (fill == h.orders[k].remaining && h.orders[k].next.None?)
    ensures SameStep(h, l, StepFor(h, l, k, before, fill, removes), Taken(MakerOf(h, k), fill), before)
  {
  }

  /** The boundary classification at the cap is the walk's stop reason. */
  lemma CapStopAgrees(h: Heap, v: View, l: ListId, limit: nat, p: nat, j: nat, remaining: nat, maker: Order, level: Level)
    requires WellFormed(h, v) && l in v.prices && p < |v.prices[l]| && remaining > 0
    requires LevelKey(h.root.key, l, v.prices[l][p]) in v.queue && j < |v.queue[LevelKey(h.root.key, l, v.prices[l][p])]|
    requires maker.next == OrderLink(h.root.key, After(v.queue[LevelKey(h.root.key, l, v.prices[l][p])], j)) && level.worse == After(v.prices[l], p)
    requires PricesCross(Opposite(l.side), limit, v.prices[l][p])
    ensures var q := v.queue[LevelKey(h.root.key, l, v.prices[l][p])];
      var rest := if j + 1 < |q| then Suffix(h, l, v.prices[l], v.queue, p, j + 1) else Suffix(h, l, v.prices[l], v.queue, p + 1, 0);
      StopReason(Opposite(l.side), limit, rest, remaining) == CapStop(Opposite(l.side), limit, maker, level)
  {
    hide WellFormed, MakerOf, QueueMakers, FlatLevels, PricesCross;
    var q := v.queue[LevelKey(h.root.key, l, v.prices[l][p])];
    FrontierHead(h, v, l, p, j);
    if j + 1 < |q| {
      FrontierHead(h, v, l, p, j + 1);
    } else if p + 1 < |v.prices[l]| {
      FrontierHead(h, v, l, p + 1, 0);
    }
  }

  lemma SeenNext(h: Heap, v: View, l: ListId, p: nat, j: nat, seen: set<Key>, levels: set<Key>)
    requires WellFormed(h, v) && l in v.prices && p < |v.prices[l]|
    requires LevelsSeen(h.root.key, l, v.prices[l], p, levels)
    requires var lk := LevelKey(h.root.key, l, v.prices[l][p]);
      lk in v.queue && j < |v.queue[lk]| && OrdersSeen(h, seen, levels, lk, v.queue[lk][j])
    ensures var lk := LevelKey(h.root.key, l, v.prices[l][p]);
      var q := v.queue[lk];
      && (j + 1 < |q| ==> OrdersSeen(h, seen + {OrderKey(h.root.key, q[j])}, levels, lk, q[j + 1]))
      && OrdersSeen(h, seen + {OrderKey(h.root.key, q[j])}, levels + {lk}, LevelKey(h.root.key, l, 0), 0)
      && LevelsSeen(h.root.key, l, v.prices[l], p + 1, levels + {lk})
  {
    hide WellFormed, MakerReadable, LevelReadable, MakerOf, LevelsSeen;
    MakerAhead(h, v, l, p, j, seen, levels);
    LevelAhead(h, v, l, p, levels);
  }

  /** One order of the traversal: refused if it is the taker's own, otherwise a step of the walk. */
  lemma TakeMaker(h: Heap, v: View, l: ListId, taker: Pubkey, limit: nat, quantity: nat, cap: nat, p: nat, j: nat, remaining: nat,
                  steps: seq<SnapStep>, done: seq<Taken>, k: Key, expectedPrevious: Option<Key>, count: nat, total: nat,
                  levels: set<Key>, orders: set<Key>)
    requires AtOrder(h, v, l, taker, limit, quantity, cap, p, j, remaining, steps, done, Some(k), expectedPrevious, count, total, levels, orders)
    requires remaining > 0 && |steps| < cap && PricesCross(Opposite(l.side), limit, v.prices[l][p])
    ensures k in h.orders && h.orders[k].priceLevel == LevelKey(h.root.key, l, v.prices[l][p]) && h.orders[k].priceLevel in h.levels
    ensures h.orders[k].owner == taker ==> SnapAgrees(h, v, l, taker, limit, quantity, cap, None)
    ensures var o, level := h.orders[k], h.levels[h.orders[k].priceLevel];
      var fill := Min(remaining, o.remaining);
      var steps' := steps + [StepFor(h, l, k, remaining, fill, fill == o.remaining && count == 1)];
      var done' := done + [Taken(MakerOf(h, k), fill)];
      o.owner != taker ==>
        if fill == remaining then SnapAgrees(h, v, l, taker, limit, quantity, cap, Some(SnapPlan(steps', 0, Stop.Filled)))
        else
          && fill == o.remaining
          && if |steps| + 1 == cap then
               SnapAgrees(h, v, l, taker, limit, quantity, cap, Some(SnapPlan(steps', remaining - fill, CapStop(Opposite(l.side), limit, o, level))))
             else if o.next.Some? then
               AtOrder(h, v, l, taker, limit, quantity, cap, p, j + 1, remaining - fill, steps', done', o.next, Some(k), count - 1,
                       total - o.remaining, levels, orders + {k})
             else
               AtLevel(h, v, l, taker, limit, quantity, cap, p + 1, remaining - fill, steps', done', level.worse, Some(v.prices[l][p]),
                       levels + {o.priceLevel}, orders + {k})
  {
    hide WellFormed, Flat, Fills, Leftover, Rest, Suffix, PricesCross, MakerOf, Reaches, SameSteps, StepFor, Advance, OrdersSeen, LevelsSeen,
      MakerReadable, CapStop, StopReason, SameStep;
    MakerFacts(h, v, l, taker, limit, quantity, cap, p, j, remaining, steps, done, k, expectedPrevious, count, total, levels, orders);
    var o, level := h.orders[k], h.levels[h.orders[k].priceLevel];
    var fill := Min(remaining, o.remaining);
    var step := StepFor(h, l, k, remaining, fill, fill == o.remaining && count == 1);
    var t := Taken(MakerOf(h, k), fill);
    ReadableMaker(h, l, v.prices[l][p], k, expectedPrevious);
    StepIsSame(h, l, k, remaining, fill, fill == o.remaining && count == 1);
    TakeAt(h, v, l, taker, limit, quantity, cap, p, j, remaining, steps, done, k, step);
    FrontierHead(h, v, l, p, j);
    SeenNext(h, v, l, p, j, orders, levels);
    var q := v.queue[o.priceLevel];
    var s := Suffix(h, l, v.prices[l], v.queue, p, j);
    StepsLength(h, l, steps, done, quantity);
    if o.owner != taker {
      ReachesTotal(Opposite(l.side), limit, Flat(h, v, l), quantity, cap, done + [t], Advance(s, fill), remaining - fill);
      if fill == remaining {
        FilledStops(h, v, l, taker, limit, quantity, cap, steps + [step], done + [t], Advance(s, fill), 0);
      } else if |steps| + 1 == cap {
        CapStopAgrees(h, v, l, limit, p, j, remaining - fill, o, level);
        FilledStops(h, v, l, taker, limit, quantity, cap, steps + [step], done + [t], Advance(s, fill), remaining - fill);
      }
    }
  }

  /** No more can be taken: the quantity or the cap is used up. */
  lemma FilledStops(h: Heap, v: View, l: ListId, taker: Pubkey, limit: nat, quantity: nat, cap: nat, steps: seq<SnapStep>, done: seq<Taken>,
                    rest: seq<Maker>, remaining: nat)
    requires l in v.prices && Reaches(Opposite(l.side), limit, Flat(h, v, l), quantity, cap, done, rest, remaining)
    requires SameSteps(h, l, steps, done, quantity) && NoSelf(taker, done)
    requires remaining == 0 || |done| == cap
    ensures SnapAgrees(h, v, l, taker, limit, quantity, cap, Some(SnapPlan(steps, remaining, StopReason(Opposite(l.side), limit, rest, remaining))))
    ensures remaining == 0 ==> StopReason(Opposite(l.side), limit, rest, remaining) == Stop.Filled
  {
    hide Flat, Fills, Leftover, Rest, PricesCross, SameSteps, NoSelf;
    ReachesStop(Opposite(l.side), limit, Flat(h, v, l), quantity, cap, done, rest, remaining) by { hide Reaches; }
  }

  lemma StepsLength(h: Heap, l: ListId, steps: seq<SnapStep>, done: seq<Taken>, quantity: nat)
    requires SameSteps(h, l, steps, done, quantity)
    ensures |steps| == |done|
  {
  }

  lemma LevelFacts(h: Heap, l: ListId, price: u64, expectedBetter: Option<u64>)
    requires LevelReadable(h, l, price, expectedBetter)
    ensures LevelKey(h.root.key, l, price) in h.levels && h.levels[LevelKey(h.root.key, l, price)].first.Some?
    ensures h.levels[LevelKey(h.root.key, l, price)].price == price
  {
  }

  /**
   * `planBoundedMatches` for any positive cap, over any account map: it always terminates, and on a well-formed side
   * its steps, routing, leftover and stop reason are the walk's; it refuses exactly a zero quantity or a path that
   * meets the taker's own order.
   */
  method PlanBoundedMatches(h: Heap, l: ListId, taker: Pubkey, limit: nat, quantity: nat, cap: nat, ghost v: View)
    returns (r: Option<SnapPlan>)
    requires Legal(h.root.kind, l) && cap > 0
    ensures quantity == 0 ==> r.None?
    ensures r.Some? ==> |r.value.steps| <= cap && r.value.remaining <= quantity
    ensures quantity > 0 && WellFormed(h, v) && l in v.prices ==> SnapAgrees(h, v, l, taker, limit, quantity, cap, r)
    ensures r.Some? && WellFormed(h, v) && l in v.prices ==>
      forall s <- r.value.steps :: if l.side.Ask? then s.price <= limit else limit <= s.price
  {
    hide WellFormed, AtLevel, AtOrder, SnapAgrees, LevelReadable, MakerReadable, PricesCross, MakerOf;
    if quantity == 0 { return None; }
    ghost var good := WellFormed(h, v) && l in v.prices;
    var side := Opposite(l.side);
    var steps: seq<SnapStep>, remaining, stop := [], quantity, BookExhausted;
    var visitedLevels: set<Key>, visitedOrders: set<Key> := {}, {};
    var currentPrice, expectedBetter: Option<u64> := Best(h.root, l), None;
    ghost var p, done: seq<Taken> := 0, [];
    if good { WalkStarts(h, v, l, taker, limit, quantity, cap); }
    while currentPrice.Some? && remaining != 0 && |steps| < cap
      invariant |steps| < cap && 0 < remaining <= quantity && stop == BookExhausted
      invariant good ==> AtLevel(h, v, l, taker, limit, quantity, cap, p, remaining, steps, done, currentPrice, expectedBetter, visitedLevels, visitedOrders)
      decreases cap - |steps|
    {
      var price := currentPrice.value;
      if !PricesCross(side, limit, price) {
        stop := NonCrossing;
        break;
      }
      var levelKey := LevelKey(h.root.key, l, price);
      if good { EnterLevel(h, v, l, taker, limit, quantity, cap, p, remaining, steps, done, price, expectedBetter, visitedLevels, visitedOrders); }
      if levelKey in visitedLevels || !LevelReadable(h, l, price, expectedBetter) { return None; }
      ghost var seen := visitedLevels;
      visitedLevels := visitedLevels + {levelKey};
      LevelFacts(h, l, price, expectedBetter);
      var level := h.levels[levelKey];
      var currentOrder, expectedPrevious: Option<Key> := level.first, None;
      var count, total, advance := level.count, level.total, false;
      ghost var j := 0;
      while currentOrder.Some? && remaining != 0 && |steps| < cap
        invariant !advance && currentOrder.Some? && |steps| < cap && 0 < remaining <= quantity && stop == BookExhausted
        invariant good ==> p < |v.prices[l]| && v.prices[l][p] == price
        invariant good ==> AtOrder(h, v, l, taker, limit, quantity, cap, p, j, remaining, steps, done, currentOrder, expectedPrevious, count, total,
                                   seen, visitedOrders)
        decreases cap - |steps|
      {
        var k := currentOrder.value;
        if good {
          MakerFacts(h, v, l, taker, limit, quantity, cap, p, j, remaining, steps, done, k, expectedPrevious, count, total, seen, visitedOrders);
          TakeMaker(h, v, l, taker, limit, quantity, cap, p, j, remaining, steps, done, k, expectedPrevious, count, total, seen, visitedOrders);
        }
        if k in visitedOrders || !MakerReadable(h, l, price, k, expectedPrevious) { return None; }
        ReadableMaker(h, l, price, k, expectedPrevious);
        visitedOrders := visitedOrders + {k};
        var maker := h.orders[k];
        if maker.owner == taker { return None; }
        var fill := Min(remaining, maker.remaining);
        var full := fill == maker.remaining;
        if total < fill || (full && count == 0) { return None; }
        var removes := full && count == 1;
        if removes {
          if maker.next.Some? || level.last != Some(k) || total != fill { return None; }
        } else if full && maker.next.None? {
          return None;
        }
        steps := steps + [StepFor(h, l, k, remaining, fill, removes)];
        ghost var taken := Taken(MakerOf(h, k), fill);
        done := done + [taken];
        remaining := remaining - fill;
        total := total - fill;
        count := if full then count - 1 else count;
        if remaining == 0 {
          stop := Stop.Filled;
          break;
        }
        if |steps| == cap {
          stop := CapStop(side, limit, maker, level);
          break;
        }
        if !full { return None; }
        if maker.next.Some? {
          expectedPrevious := Some(k);
          currentOrder := maker.next;
          j := j + 1;
        } else {
          expectedBetter := Some(level.price);
          currentPrice := level.worse;
          advance := true;
          p := p + 1;
          break;
        }
      }
      if remaining == 0 || |steps| == cap { break; }
      if !advance { break; }
    }
    r := Some(SnapPlan(steps, remaining, stop));
    if good && remaining != 0 && |steps| < cap {
      StopsHere(h, v, l, taker, limit, quantity, cap, p, remaining, steps, done, currentPrice, expectedBetter, visitedLevels, visitedOrders);
    }
    if good {
      assert SnapAgrees(h, v, l, taker, limit, quantity, cap, r);
      AgreedWithinLimit(h, v, l, taker, limit, quantity, cap, r);
    }
  }

  lemma AgreedWithinLimit(h: Heap, v: View, l: ListId, taker: Pubkey, limit: nat, quantity: nat, cap: nat, r: Option<SnapPlan>)
    requires l in v.prices && SnapAgrees(h, v, l, taker, limit, quantity, cap, r) && r.Some?
    ensures forall s <- r.value.steps :: if l.side.Ask? then s.price <= limit else limit <= s.price
  {
    hide Fills, Flat;
    StepsWithinLimit(h, l, r.value.steps, limit, Flat(h, v, l), quantity, cap);
  }

  /** Steps that are the walk's fills are at or inside the limit. */
  lemma StepsWithinLimit(h: Heap, l: ListId, steps: seq<SnapStep>, limit: nat, makers: seq<Maker>, quantity: nat, cap: nat)
    requires SameSteps(h, l, steps, Fills(Opposite(l.side), limit, makers, quantity, cap), quantity)
    ensures forall s <- steps :: if l.side.Ask? then s.price <= limit else limit <= s.price
  {
    var fills := Fills(Opposite(l.side), limit, makers, quantity, cap);
    FillsWithinLimit(Opposite(l.side), limit, makers, quantity, cap);
    hide Fills;
    forall s <- steps ensures if l.side.Ask? then s.price <= limit else limit <= s.price {
      var i :| 0 <= i < |steps| && steps[i] == s;
      assert SameStep(h, l, steps[i], fills[i], quantity - Total(fills[..i])) && fills[i] in fills;
    }
  }

  // ------------------------------------------------------- the two planners agree

  lemma {:induction false} StepFillsAt(steps: seq<PredictionPlan.SpecStep>, i: nat)
    requires i < |steps|
    ensures |PredictionPlan.StepFills(steps)| == |steps|
    ensures PredictionPlan.StepFills(steps)[i] == Taken(steps[i].maker, steps[i].base)
  {
    if i > 0 {
      StepFillsAt(steps[1..], i - 1);
    } else if |steps| > 1 {
      StepFillsAt(steps[1..], 0);
    }
  }

  lemma {:induction false} PlanRequests(taker: Pubkey, outcome: Outcome, side: Side, limit: nat, makers: seq<Maker>, quantity: nat, cap: nat,
                                        bps: nat, funds: Funds, fees: nat, i: nat)
    requires PredictionPlan.PlanSpec(taker, outcome, side, limit, makers, quantity, cap, bps, funds, fees).Some?
    requires i < |PredictionPlan.PlanSpec(taker, outcome, side, limit, makers, quantity, cap, bps, funds, fees).value.steps|
    ensures var steps := PredictionPlan.PlanSpec(taker, outcome, side, limit, makers, quantity, cap, bps, funds, fees).value.steps;
      var fills := PredictionPlan.StepFills(steps);
      && |fills| == |steps|
      && steps[i].maker.owner != taker
      && steps[i].requested == quantity - Total(fills[..i])
    decreases cap
  {
    hide SettleFunds, PricesCross, CeilFee, Advance;
    var spec := PredictionPlan.PlanSpec(taker, outcome, side, limit, makers, quantity, cap, bps, funds, fees).value;
    StepFillsAt(spec.steps, i);
    var fills := PredictionPlan.StepFills(spec.steps);
    var base := TakeFrom(makers, quantity);
    var trade := PredictionPlan.FillTrade(taker, makers[0].owner, outcome, side, makers[0].price, base, bps);
    if i > 0 {
      var funds' := SettleFunds(funds, trade).value;
      PlanRequests(taker, outcome, side, limit, Advance(makers, base), quantity - base, cap - 1, bps, funds', fees + trade.fee, i - 1);
      var tail := PredictionPlan.PlanSpec(taker, outcome, side, limit, Advance(makers, base), quantity - base, cap - 1, bps, funds', fees + trade.fee).value;
      assert spec.steps[1..] == tail.steps;
      assert fills[..i][1..] == fills[1..][..i - 1];
    }
  }

  /** One step of either planner, with everything it hands to the program. */
  ghost predicate SameInstruction(a: PredictionPlan.Step, b: SnapStep) {
    && a.target.maker == b.maker && a.fill == b.fill && a.requested == b.before
    && a.target.next == b.next && a.target.worse == b.worse && a.target.recipient == b.recipient
  }

  lemma FillsLength(steps: seq<PredictionPlan.SpecStep>)
    ensures |PredictionPlan.StepFills(steps)| == |steps|
  {
    if steps != [] { StepFillsAt(steps, 0); }
  }

  /** A specified step is the walk's fill, asked for with what was left before it. */
  ghost predicate StepIsFill(taker: Pubkey, s: PredictionPlan.SpecStep, t: Taken, before: int) {
    s.maker.owner != taker && t == Taken(s.maker, s.base) && s.requested == before
  }

  lemma SpecFills(ask: PredictionPlan.Request, makers: seq<Maker>, quantity: nat, cap: nat, funds: Funds, fees: nat, i: nat)
    requires PredictionPlan.PlanSpec(ask.taker, ask.outcome, ask.side, ask.limit, makers, quantity, cap, ask.bps, funds, fees).Some?
    ensures var steps := PredictionPlan.PlanSpec(ask.taker, ask.outcome, ask.side, ask.limit, makers, quantity, cap, ask.bps, funds, fees).value.steps;
      var fills := Fills(ask.side, ask.limit, makers, quantity, cap);
      && |fills| == |steps|
      && (i < |fills| ==> StepIsFill(ask.taker, steps[i], fills[i], quantity - Total(fills[..i])))
  {
    hide PredictionPlan.PlanSpec, Fills;
    var steps := PredictionPlan.PlanSpec(ask.taker, ask.outcome, ask.side, ask.limit, makers, quantity, cap, ask.bps, funds, fees).value.steps;
    PredictionPlan.PlanTakesTheWalk(ask.taker, ask.outcome, ask.side, ask.limit, makers, quantity, cap, ask.bps, funds, fees);
    FillsLength(steps);
    if i < |steps| {
      StepFillsAt(steps, i);
      PlanRequests(ask.taker, ask.outcome, ask.side, ask.limit, makers, quantity, cap, ask.bps, funds, fees, i);
    }
  }

  lemma StepsMatch(h: Heap, l: ListId, taker: Pubkey, bps: nat, a: PredictionPlan.Step, s: PredictionPlan.SpecStep, t: Taken, b: SnapStep, before: int)
    requires PredictionPlan.SameStep(a, s, bps) && StepIsFill(taker, s, t, before) && SameStep(h, l, b, t, before)
    ensures SameInstruction(a, b)
  {
    hide RouteOf, CeilFee;
  }

  /**
   * On the same consistent book, whenever the overlay simulation returns a plan, the snapshot traversal returns one
   * with the same makers, fills, routing accounts, leftover and stop reason.
   */
  lemma PlannersAgree(ask: PredictionPlan.Request, h: Heap, v: View, funds: Funds, elsewhere: map<Purse, nat>,
                      quantity: nat, cap: nat, fees: nat, a: PredictionPlan.Result, after: View, b: Option<SnapPlan>)
    requires ListId(ask.outcome, Opposite(ask.side)) in v.prices
    requires PredictionPlan.PlanAgrees(ask, h, v, funds, elsewhere, quantity, cap, fees, a, after)
    requires SnapAgrees(h, v, ListId(ask.outcome, Opposite(ask.side)), ask.taker, ask.limit, quantity, cap, b)
    ensures b.Some? && |a.steps| == |b.value.steps| && a.remaining == b.value.remaining && a.stop == b.value.stop
    ensures forall i :: 0 <= i < |a.steps| ==> SameInstruction(a.steps[i], b.value.steps[i])
  {
    var l := ListId(ask.outcome, Opposite(ask.side));
    hide PredictionPlan.PlanSpec, Flat, Fills, Leftover, Rest, StopReason, Consistent, SameStep, PredictionPlan.SameStep, SameInstruction, Total;
    var makers := Flat(h, v, l);
    var steps := PredictionPlan.PlanSpec(ask.taker, ask.outcome, ask.side, ask.limit, makers, quantity, cap, ask.bps, funds, fees).value.steps;
    var fills := Fills(ask.side, ask.limit, makers, quantity, cap);
    SpecFills(ask, makers, quantity, cap, funds, fees, 0);
    forall i | 0 <= i < |fills| ensures fills[i].maker.owner != ask.taker {
      SpecFills(ask, makers, quantity, cap, funds, fees, i);
    }
    assert NoSelf(ask.taker, fills);
    forall i | 0 <= i < |a.steps| ensures SameInstruction(a.steps[i], b.value.steps[i]) {
      SpecFills(ask, makers, quantity, cap, funds, fees, i);
      StepsMatch(h, l, ask.taker, ask.bps, a.steps[i], steps[i], fills[i], b.value.steps[i], quantity - Total(fills[..i]));
    }
  }
}
