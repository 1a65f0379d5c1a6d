/**
 * The one thing every matching planner computes: read the opposing side as a flat sequence of makers in price-time
 * order and fill it from the front, up to the limit price, the quantity and the cap.
 */
module Walk {
  import opened Base
  import opened Settlement
  import opened BookHeap
  import opened Removal
  import opened Updates

  /** An order as a taker meets it, with the accounts its complete fill would repair or pay. */
  datatype Maker = Maker(key: Key, owner: Pubkey, price: u64, remaining: u64, next: Option<Key>, worse: Option<Key>, payer: Pubkey)

  datatype Route = Route(next: Option<Key>, worse: Option<Key>, recipient: Option<Pubkey>)

  /** A partial fill touches nothing else; a full one promotes the next order, or retires the level. */
  function RouteOf(m: Maker, base: nat): Route {
    if base < m.remaining then Route(None, None, None)
    else if m.next.Some? then Route(m.next, None, None)
    else Route(None, m.worse, Some(m.payer))
  }

  datatype Taken = Taken(maker: Maker, base: nat)

  datatype Stop = Filled | BookExhausted | NonCrossing | MatchCap

  // ------------------------------------------------------------ the flat reading

  function MakerOf(h: Heap, k: Key): Maker {
    if k in h.orders && h.orders[k].priceLevel in h.levels then
      var o, lvl := h.orders[k], h.levels[h.orders[k].priceLevel];
      Maker(k, o.owner, o.price, o.remaining, o.next, LevelLink(h.root.key, o.list, lvl.worse), lvl.rentPayer)
    else Maker(k, 0, 0, 0, None, None, 0)
  }

  function QueueMakers(h: Heap, q: seq<u64>): seq<Maker> {
    if q == [] then [] else [MakerOf(h, OrderKey(h.root.key, q[0]))] + QueueMakers(h, q[1..])
  }

  function QueueAt(queue: map<Key, seq<u64>>, k: Key): seq<u64> {
    if k in queue then queue[k] else []
  }

  /** Makers of the levels `ps`, best level first, oldest order first within a level. */
  function FlatLevels(h: Heap, l: ListId, ps: seq<u64>, queue: map<Key, seq<u64>>): seq<Maker> {
    if ps == [] then []
    else QueueMakers(h, QueueAt(queue, LevelKey(h.root.key, l, ps[0]))) + FlatLevels(h, l, ps[1..], queue)
  }

  function Flat(h: Heap, v: View, l: ListId): seq<Maker>
    requires l in v.prices
  {
    FlatLevels(h, l, v.prices[l], v.queue)
  }

  // ------------------------------------------------------------------- the fill

  predicate CanTake(side: Side, limit: nat, makers: seq<Maker>, quantity: nat, cap: nat) {
    quantity > 0 && cap > 0 && makers != [] && PricesCross(side, limit, makers[0].price)
  }

  function Advance(makers: seq<Maker>, base: nat): seq<Maker>
    requires makers != [] && base <= makers[0].remaining
  {
    if base == makers[0].remaining then makers[1..]
    else [makers[0].(remaining := makers[0].remaining - base)] + makers[1..]
  }

  function TakeFrom(makers: seq<Maker>, quantity: nat): nat
    requires makers != []
  {
    Min(quantity, makers[0].remaining)
  }

  /** The fills: each crossing maker in turn, as much as it and the taker allow, at most `cap` of them. */
  function Fills(side: Side, limit: nat, makers: seq<Maker>, quantity: nat, cap: nat): seq<Taken>
    decreases cap
  {
    if !CanTake(side, limit, makers, quantity, cap) then []
    else
      var base := TakeFrom(makers, quantity);
      [Taken(makers[0], base)] + Fills(side, limit, Advance(makers, base), quantity - base, cap - 1)
  }

  function Rest(side: Side, limit: nat, makers: seq<Maker>, quantity: nat, cap: nat): seq<Maker>
    decreases cap
  {
    if !CanTake(side, limit, makers, quantity, cap) then makers
    else
      var base := TakeFrom(makers, quantity);
      Rest(side, limit, Advance(makers, base), quantity - base, cap - 1)
  }

  function Leftover(side: Side, limit: nat, makers: seq<Maker>, quantity: nat, cap: nat): nat
    decreases cap
  {
    if !CanTake(side, limit, makers, quantity, cap) then quantity
    else
      var base := TakeFrom(makers, quantity);
      Leftover(side, limit, Advance(makers, base), quantity - base, cap - 1)
  }

  function StopReason(side: Side, limit: nat, rest: seq<Maker>, leftover: nat): Stop {
    if leftover == 0 then Stop.Filled
    else if rest == [] then BookExhausted
    else if !PricesCross(side, limit, rest[0].price) then NonCrossing
    else MatchCap
  }

  function Total(fills: seq<Taken>): nat {
    if fills == [] then 0 else fills[0].base + Total(fills[1..])
  }

  ghost predicate PositiveMakers(makers: seq<Maker>) {
    forall i :: 0 <= i < |makers| ==> makers[i].remaining > 0
  }

  /** The i-th fill takes from the i-th maker, everything it has unless the taker runs out there. */
  ghost predicate TakesInOrder(side: Side, limit: nat, makers: seq<Maker>, fills: seq<Taken>, i: nat)
    requires i < |fills| && |fills| <= |makers|
  {
    && fills[i].maker == makers[i]
    && 0 < fills[i].base <= makers[i].remaining
    && (if side.Bid? then makers[i].price <= limit else limit <= makers[i].price)
    && (i + 1 < |fills| ==> fills[i].base == makers[i].remaining)
  }

  /** What the walk promises: at most `cap` fills, quantity conserved, and makers taken strictly in order. */
  lemma {:induction false} WalkIsPriceTimePriority(side: Side, limit: nat, makers: seq<Maker>, quantity: nat, cap: nat)
    requires PositiveMakers(makers)
    ensures var fills := Fills(side, limit, makers, quantity, cap);
      var leftover := Leftover(side, limit, makers, quantity, cap);
      && |fills| <= cap && |fills| <= |makers|
      && Total(fills) + leftover == quantity
      && (forall i :: 0 <= i < |fills| ==> TakesInOrder(side, limit, makers, fills, i))
      && (leftover > 0 ==> Rest(side, limit, makers, quantity, cap) == makers[|fills|..])
    decreases cap
  {
    hide PricesCross, TakesInOrder;
    if CanTake(side, limit, makers, quantity, cap) {
      WalkUnfolds(side, limit, makers, quantity, cap);
      hide Fills, Leftover, Rest;
      var base := TakeFrom(makers, quantity);
      var fills := Fills(side, limit, makers, quantity, cap);
      var rest := Advance(makers, base);
      var tail := Fills(side, limit, rest, quantity - base, cap - 1);
      assert fills[1..] == tail && fills[0] == Taken(makers[0], base);
      if base == makers[0].remaining {
        assert rest == makers[1..];
        WalkIsPriceTimePriority(side, limit, rest, quantity - base, cap - 1);
        hide Advance;
        forall i | 0 <= i < |fills| ensures TakesInOrder(side, limit, makers, fills, i) {
          if i > 0 { TakesLater(side, limit, makers, fills, i); } else { TakesFirst(side, limit, makers, fills); }
        }
      } else {
        NothingLeft(side, limit, rest, cap - 1);
        TakesLast(side, limit, makers, fills);
      }
    }
  }

  lemma NothingLeft(side: Side, limit: nat, makers: seq<Maker>, cap: nat)
    ensures Fills(side, limit, makers, 0, cap) == [] && Leftover(side, limit, makers, 0, cap) == 0
  {
  }

  lemma TakesLast(side: Side, limit: nat, makers: seq<Maker>, fills: seq<Taken>)
    requires |fills| == 1 <= |makers| && fills[0].maker == makers[0] && 0 < fills[0].base <= makers[0].remaining
    requires PricesCross(side, limit, makers[0].price)
    ensures TakesInOrder(side, limit, makers, fills, 0)
  {
  }

  lemma TakesFirst(side: Side, limit: nat, makers: seq<Maker>, fills: seq<Taken>)
    requires 0 < |fills| <= |makers| && fills[0] == Taken(makers[0], makers[0].remaining) && makers[0].remaining > 0
    requires PricesCross(side, limit, makers[0].price)
    ensures TakesInOrder(side, limit, makers, fills, 0)
  {
  }

  lemma TakesLater(side: Side, limit: nat, makers: seq<Maker>, fills: seq<Taken>, i: nat)
    requires 0 < i < |fills| <= |makers| && TakesInOrder(side, limit, makers[1..], fills[1..], i - 1)
    ensures TakesInOrder(side, limit, makers, fills, i)
  {
  }

  /** No fill is ever beyond the limit price. */
  lemma {:induction false} FillsWithinLimit(side: Side, limit: nat, makers: seq<Maker>, quantity: nat, cap: nat)
    ensures forall t <- Fills(side, limit, makers, quantity, cap) :: if side.Bid? then t.maker.price <= limit else limit <= t.maker.price
    decreases cap
  {
    if CanTake(side, limit, makers, quantity, cap) {
      FillsWithinLimit(side, limit, Advance(makers, TakeFrom(makers, quantity)), quantity - TakeFrom(makers, quantity), cap - 1);
    }
  }

  /** The walk goes on while it can. */
  lemma {:induction false} WalkEnds(side: Side, limit: nat, makers: seq<Maker>, quantity: nat, cap: nat)
    ensures var fills := Fills(side, limit, makers, quantity, cap);
      |fills| <= cap && !CanTake(side, limit, Rest(side, limit, makers, quantity, cap), Leftover(side, limit, makers, quantity, cap), cap - |fills|)
    decreases cap
  {
    if CanTake(side, limit, makers, quantity, cap) {
      WalkUnfolds(side, limit, makers, quantity, cap);
      WalkEnds(side, limit, Advance(makers, TakeFrom(makers, quantity)), quantity - TakeFrom(makers, quantity), cap - 1);
      hide CanTake, Advance, Rest, Leftover, Fills;
    }
  }

  /** Why a walk stops: nothing left to take, no maker left, the next maker beyond the limit, or only the cap. */
  lemma StopMeans(side: Side, limit: nat, makers: seq<Maker>, quantity: nat, cap: nat)
    requires PositiveMakers(makers)
    ensures var fills := Fills(side, limit, makers, quantity, cap);
      var leftover := Leftover(side, limit, makers, quantity, cap);
      var stop := StopReason(side, limit, Rest(side, limit, makers, quantity, cap), leftover);
      && |fills| <= |makers|
      && (stop == Stop.Filled <==> leftover == 0)
      && (stop == BookExhausted <==> leftover > 0 && |fills| == |makers|)
      && (stop == NonCrossing <==> leftover > 0 && |fills| < |makers|
                                   && if side.Bid? then limit < makers[|fills|].price else makers[|fills|].price < limit)
      && (stop == MatchCap <==> leftover > 0 && |fills| < |makers| && |fills| == cap
                                && if side.Bid? then makers[|fills|].price <= limit else limit <= makers[|fills|].price)
  {
    hide Fills, Leftover, Rest, TakesInOrder;
    WalkIsPriceTimePriority(side, limit, makers, quantity, cap);
    WalkEnds(side, limit, makers, quantity, cap);
  }

  // --------------------------------------------------------- walking step by step

  /** After `done`, the walk over `rest` with `remaining` leads to the same fills, leftover and untouched makers. */
  ghost predicate Reaches(side: Side, limit: nat, makers: seq<Maker>, quantity: nat, cap: nat, done: seq<Taken>, rest: seq<Maker>, remaining: nat) {
    && |done| <= cap
    && Fills(side, limit, makers, quantity, cap) == done + Fills(side, limit, rest, remaining, cap - |done|)
    && Leftover(side, limit, makers, quantity, cap) == Leftover(side, limit, rest, remaining, cap - |done|)
    && Rest(side, limit, makers, quantity, cap) == Rest(side, limit, rest, remaining, cap - |done|)
    && Total(done) + remaining == quantity
  }

  lemma ReachesStart(side: Side, limit: nat, makers: seq<Maker>, quantity: nat, cap: nat)
    ensures Reaches(side, limit, makers, quantity, cap, [], makers, quantity)
  {
    var fills := Fills(side, limit, makers, quantity, cap);
    hide Fills, Leftover, Rest;
    assert [] + fills == fills;
  }

  lemma {:induction false} TotalAppend(fills: seq<Taken>, t: Taken)
    ensures Total(fills + [t]) == Total(fills) + t.base
  {
    if fills == [] {
    } else {
      TotalAppend(fills[1..], t);
      assert (fills + [t])[1..] == fills[1..] + [t];
    }
  }

  lemma WalkUnfolds(side: Side, limit: nat, makers: seq<Maker>, quantity: nat, cap: nat)
    requires CanTake(side, limit, makers, quantity, cap)
    ensures var base := TakeFrom(makers, quantity);
      var rest := Advance(makers, base);
      && Fills(side, limit, makers, quantity, cap) == [Taken(makers[0], base)] + Fills(side, limit, rest, quantity - base, cap - 1)
      && Leftover(side, limit, makers, quantity, cap) == Leftover(side, limit, rest, quantity - base, cap - 1)
      && Rest(side, limit, makers, quantity, cap) == Rest(side, limit, rest, quantity - base, cap - 1)
  {
  }

  lemma ReachesStep(side: Side, limit: nat, makers: seq<Maker>, quantity: nat, cap: nat, done: seq<Taken>, rest: seq<Maker>, remaining: nat)
    requires Reaches(side, limit, makers, quantity, cap, done, rest, remaining)
    requires CanTake(side, limit, rest, remaining, cap - |done|)
    ensures var base := TakeFrom(rest, remaining);
      && |done| < |Fills(side, limit, makers, quantity, cap)| && Fills(side, limit, makers, quantity, cap)[|done|] == Taken(rest[0], base)
      && Reaches(side, limit, makers, quantity, cap, done + [Taken(rest[0], base)], Advance(rest, base), remaining - base)
  {
    hide PricesCross, Advance, Fills, Leftover, Rest, Total;
    var base := TakeFrom(rest, remaining);
    var tail := Fills(side, limit, Advance(rest, base), remaining - base, cap - |done| - 1);
    WalkUnfolds(side, limit, rest, remaining, cap - |done|);
    assert done + ([Taken(rest[0], base)] + tail) == (done + [Taken(rest[0], base)]) + tail;
    TotalAppend(done, Taken(rest[0], base));
  }

  lemma ReachesStop(side: Side, limit: nat, makers: seq<Maker>, quantity: nat, cap: nat, done: seq<Taken>, rest: seq<Maker>, remaining: nat)
    requires Reaches(side, limit, makers, quantity, cap, done, rest, remaining)
    requires !CanTake(side, limit, rest, remaining, cap - |done|)
    ensures Fills(side, limit, makers, quantity, cap) == done
    ensures Leftover(side, limit, makers, quantity, cap) == remaining
    ensures Rest(side, limit, makers, quantity, cap) == rest
  {
    hide CanTake;
    assert done + [] == done;
  }

  // -------------------------------------------- the reading under book changes

  lemma {:induction false} QueueMakersFrame(a: Heap, b: Heap, q: seq<u64>)
    requires a.root.key == b.root.key
    requires forall id <- q :: MakerOf(a, OrderKey(a.root.key, id)) == MakerOf(b, OrderKey(a.root.key, id))
    ensures QueueMakers(a, q) == QueueMakers(b, q)
  {
    if q != [] { QueueMakersFrame(a, b, q[1..]); }
  }

  lemma {:induction false} FlatFrame(a: Heap, b: Heap, l: ListId, ps: seq<u64>, queueA: map<Key, seq<u64>>, queueB: map<Key, seq<u64>>)
    requires a.root.key == b.root.key
    requires forall p <- ps :: QueueAt(queueA, LevelKey(a.root.key, l, p)) == QueueAt(queueB, LevelKey(a.root.key, l, p))
    requires forall p <- ps :: forall id <- QueueAt(queueA, LevelKey(a.root.key, l, p)) ::
      MakerOf(a, OrderKey(a.root.key, id)) == MakerOf(b, OrderKey(a.root.key, id))
    ensures FlatLevels(a, l, ps, queueA) == FlatLevels(b, l, ps, queueB)
  {
    hide MakerOf;
    if ps != [] {
      assert ps[0] in ps;
      QueueMakersFrame(a, b, QueueAt(queueA, LevelKey(a.root.key, l, ps[0])));
      FlatFrame(a, b, l, ps[1..], queueA, queueB);
    }
  }

  /** Every maker of a reading shows its own order's owner and price. */
  ghost predicate Recorded(h: Heap, makers: seq<Maker>) {
    forall m <- makers :: m.key in h.orders && m.owner == h.orders[m.key].owner && m.price == h.orders[m.key].price
  }

  lemma {:induction false} QueueRecorded(h: Heap, v: View, k: Key, q: seq<u64>)
    requires WellFormed(h, v) && k in v.queue && forall id <- q :: id in v.queue[k]
    ensures Recorded(h, QueueMakers(h, q))
  {
    if q != [] {
      QueuedOrder(h, v, k, q[0]);
      hide WellFormed;
      QueueRecorded(h, v, k, q[1..]);
    }
  }

  lemma {:induction false} LevelsRecorded(h: Heap, v: View, l: ListId, ps: seq<u64>)
    requires WellFormed(h, v)
    ensures Recorded(h, FlatLevels(h, l, ps, v.queue))
  {
    hide WellFormed, QueueMakers;
    if ps != [] {
      var k := LevelKey(h.root.key, l, ps[0]);
      if k in v.queue { QueueRecorded(h, v, k, v.queue[k]); } else { NoMakers(h); }
      LevelsRecorded(h, v, l, ps[1..]);
    }
  }

  lemma FlatRecorded(h: Heap, v: View, l: ListId)
    requires WellFormed(h, v) && l in v.prices
    ensures Recorded(h, Flat(h, v, l))
  {
    LevelsRecorded(h, v, l, v.prices[l]);
  }

  /** The head of the flat sequence is the head order of the best level. */
  lemma FlatHead(h: Heap, v: View, l: ListId)
    requires WellFormed(h, v) && l in v.prices && v.prices[l] != []
    ensures var lk := LevelKey(h.root.key, l, v.prices[l][0]);
      && lk in v.queue && v.queue[lk] != []
      && Flat(h, v, l) == [MakerOf(h, OrderKey(h.root.key, v.queue[lk][0]))]
                          + (QueueMakers(h, v.queue[lk][1..]) + FlatLevels(h, l, v.prices[l][1..], v.queue))
  {
    hide Linked, NoStray, MakerOf;
    RungChecks(h, v, l, 0);
    QueueEnds(h, v, LevelKey(h.root.key, l, v.prices[l][0]));
    var q := v.queue[LevelKey(h.root.key, l, v.prices[l][0])];
    assert QueueMakers(h, q) == [MakerOf(h, OrderKey(h.root.key, q[0]))] + QueueMakers(h, q[1..]);
  }

  lemma FlatEmpty(h: Heap, v: View, l: ListId)
    requires WellFormed(h, v) && l in v.prices
    ensures Flat(h, v, l) == [] <==> v.prices[l] == []
    ensures Legal(h.root.kind, l) && Best(h.root, l) == Head(v.prices[l])
  {
    assert Ladder(h, l, v.prices[l]) by { assert Ladders(h, v.prices); }
    hide WellFormed;
    if v.prices[l] != [] { FlatHead(h, v, l); }
  }

  lemma HeadFacts(h: Heap, v: View, l: ListId) returns (lk: Key, rk: Key)
    requires WellFormed(h, v) && l in v.prices && v.prices[l] != []
    ensures lk == LevelKey(h.root.key, l, v.prices[l][0]) && lk in v.queue && v.queue[lk] != [] && lk in h.levels
    ensures rk == OrderKey(h.root.key, v.queue[lk][0]) && rk in h.orders && h.orders[rk].status.Open? && h.orders[rk].priceLevel == lk
    ensures h.orders[rk].previous.None? && h.levels[lk].better.None? && h.levels[lk].list == l
    ensures h.levels[lk].worse == After(v.prices[l], 0) && h.orders[rk].next == OrderLink(h.root.key, After(v.queue[lk], 0))
    ensures Ascending(v.queue[lk])
    ensures Ranked(l.side, v.prices[l])
    ensures h.orders[rk].remaining > 0
    ensures Flat(h, v, l) != [] && Flat(h, v, l)[0] == MakerOf(h, rk)
  {
    lk := LevelKey(h.root.key, l, v.prices[l][0]);
    RungChecks(h, v, l, 0);
    QueueEnds(h, v, lk);
    LevelChecks(h, v, lk);
    rk := OrderKey(h.root.key, v.queue[lk][0]);
    assert Ladder(h, l, v.prices[l]) by { assert Ladders(h, v.prices); }
    assert Node(h, lk, v.queue[lk], 0) by { assert Queue(h, lk, v.queue[lk]); }
    FlatHead(h, v, l);
    hide WellFormed;
  }

  /** Orders of any queue other than the head's are other orders, at other levels. */
  lemma OtherQueueIds(h: Heap, v: View, lk: Key, k: Key, id: u64)
    requires WellFormed(h, v) && lk in v.queue && v.queue[lk] != [] && k != lk && id in QueueAt(v.queue, k)
    ensures id != v.queue[lk][0]
    ensures OrderKey(h.root.key, id) in h.orders && h.orders[OrderKey(h.root.key, id)].priceLevel == k && k in h.levels
  {
    QueuedOrder(h, v, k, id);
    if id == v.queue[lk][0] {
      QueuesDisjoint(h, v, k, lk, id);
      assert false;
    }
  }

  lemma QueuedOrder(h: Heap, v: View, k: Key, id: u64)
    requires Linked(h, v) && k in v.queue && id in v.queue[k]
    ensures OrderKey(h.root.key, id) in h.orders && h.orders[OrderKey(h.root.key, id)].priceLevel == k && k in h.levels
  {
    assert Queue(h, k, v.queue[k]);
    assert Node(h, k, v.queue[k], IndexOf(v.queue[k], id));
  }

  /** Retiring a head leaves every other maker's terms and routing as they were. */
  lemma RetireKeepsMaker(h: Heap, rk: Key, o': Order, k: Key)
    requires Detachable(h, rk) && h.orders[rk].previous.None? && h.levels[h.orders[rk].priceLevel].better.None?
    requires k in h.orders && k != rk && h.orders[k].priceLevel in h.levels
    requires h.levels[h.orders[rk].priceLevel].count == 1 ==> h.orders[k].priceLevel != h.orders[rk].priceLevel
    ensures MakerOf(Retired(h, rk, o'), k) == MakerOf(h, k)
  {
  }

  ghost predicate RetiresHead(h: Heap, v: View, l: ListId, rk: Key, lk: Key) {
    && l in v.prices && v.prices[l] != []
    && lk == LevelKey(h.root.key, l, v.prices[l][0]) && lk in v.queue && v.queue[lk] != []
    && rk == OrderKey(h.root.key, v.queue[lk][0]) && Detachable(h, rk) && Stands(v, lk, rk.id)
  }

  /** What the view keeps when its head order goes. */
  lemma HeadDeleted(h: Heap, v: View, l: ListId, rk: Key, lk: Key)
    requires WellFormed(h, v) && RetiresHead(h, v, l, rk, lk)
    ensures var v' := Deleted(v, lk, rk.id);
      && l in v'.prices
      && (if |v.queue[lk]| > 1 then v'.prices[l] == v.prices[l] && QueueAt(v'.queue, lk) == v.queue[lk][1..]
          else v'.prices[l] == v.prices[l][1..])
      && (forall p <- v.prices[l][1..] :: LevelKey(h.root.key, l, p) != lk
                                          && QueueAt(v'.queue, LevelKey(h.root.key, l, p)) == QueueAt(v.queue, LevelKey(h.root.key, l, p)))
  {
    hide Linked, NoStray, Detachable;
    var ps, q := v.prices[l], v.queue[lk];
    var lk0, rk0 := HeadFacts(h, v, l);
    QueueEnds(h, v, lk);
    DropSingleton(q, rk.id, 0);
    DropSingleton(ps, ps[0], 0);
    assert DropAt(q, 0) == q[1..] && DropAt(ps, 0) == ps[1..];
  }

  /** The makers behind the head are the same after it is gone. */
  lemma RetireKeepsOthers(h: Heap, v: View, l: ListId, rk: Key, lk: Key, o': Order)
    requires WellFormed(h, v) && RetiresHead(h, v, l, rk, lk)
    ensures var h' := Retired(h, rk, o');
      && FlatLevels(h', l, v.prices[l][1..], Deleted(v, lk, rk.id).queue) == FlatLevels(h, l, v.prices[l][1..], v.queue)
      && QueueMakers(h', v.queue[lk][1..]) == QueueMakers(h, v.queue[lk][1..])
  {
    hide Linked, NoStray, Retired, MakerOf, Detachable, QueueMakers, FlatLevels, Stands, Deleted;
    var h' := Retired(h, rk, o');
    var v' := Deleted(v, lk, rk.id);
    var ps, q := v.prices[l], v.queue[lk];
    var lk0, rk0 := HeadFacts(h, v, l);
    HeadDeleted(h, v, l, rk, lk);
    RetiredKey(h, rk, o');
    QueueEnds(h, v, lk);
    forall p <- ps[1..], id <- QueueAt(v.queue, LevelKey(h.root.key, l, p))
      ensures MakerOf(h', OrderKey(h.root.key, id)) == MakerOf(h, OrderKey(h.root.key, id))
    {
      OtherQueueIds(h, v, lk, LevelKey(h.root.key, l, p), id);
      RetireKeepsMaker(h, rk, o', OrderKey(h.root.key, id));
    }
    FlatFrame(h, h', l, ps[1..], v.queue, v'.queue);
    forall id <- q[1..] ensures MakerOf(h', OrderKey(h.root.key, id)) == MakerOf(h, OrderKey(h.root.key, id)) {
      QueuedOrder(h, v, lk, id);
      RetireKeepsMaker(h, rk, o', OrderKey(h.root.key, id));
    }
    QueueMakersFrame(h, h', q[1..]);
  }

  /** Retiring the head drops exactly the first maker. */
  lemma FlatAfterRetire(h: Heap, v: View, l: ListId, rk: Key, lk: Key, o': Order)
    requires WellFormed(h, v) && l in v.prices && v.prices[l] != []
    requires lk == LevelKey(h.root.key, l, v.prices[l][0]) && lk in v.queue && v.queue[lk] != []
    requires rk == OrderKey(h.root.key, v.queue[lk][0]) && Detachable(h, rk) && Stands(v, lk, rk.id)
    ensures l in Deleted(v, lk, rk.id).prices
    ensures Flat(Retired(h, rk, o'), Deleted(v, lk, rk.id), l) == Flat(h, v, l)[1..]
  {
    assert RetiresHead(h, v, l, rk, lk);
    hide WellFormed, Retired, MakerOf, Detachable, QueueMakers, FlatLevels, Stands, Deleted;
    var h' := Retired(h, rk, o');
    var v' := Deleted(v, lk, rk.id);
    var ps, q := v.prices[l], v.queue[lk];
    FlatHead(h, v, l);
    HeadDeleted(h, v, l, rk, lk);
    RetireKeepsOthers(h, v, l, rk, lk, o');
    RetiredKey(h, rk, o');
    if |q| > 1 {
      FlatLevelsStep(h', l, ps, v'.queue);
    } else {
      assert q[1..] == [];
      NoMakers(h);
    }
  }

  lemma FlatLevelsStep(h: Heap, l: ListId, ps: seq<u64>, queue: map<Key, seq<u64>>)
    requires ps != []
    ensures FlatLevels(h, l, ps, queue) == QueueMakers(h, QueueAt(queue, LevelKey(h.root.key, l, ps[0]))) + FlatLevels(h, l, ps[1..], queue)
  {
  }

  lemma NoMakers(h: Heap)
    ensures QueueMakers(h, []) == []
  {
  }

  lemma RetiredKey(h: Heap, rk: Key, o': Order)
    requires Detachable(h, rk)
    ensures Retired(h, rk, o').root.key == h.root.key
  {
  }

  lemma PartialKeepsMaker(h: Heap, rk: Key, fill: nat, debit: nat, k: Key)
    requires Fillable(h, rk, fill, debit)
    ensures k != rk ==> MakerOf(PartlyFilled(h, rk, fill, debit), k) == MakerOf(h, k)
    ensures fill < MakerOf(h, rk).remaining
    ensures PartlyFilled(h, rk, fill, debit).root == h.root
    ensures MakerOf(PartlyFilled(h, rk, fill, debit), rk) == MakerOf(h, rk).(remaining := MakerOf(h, rk).remaining - fill)
  {
  }

  /** A partial fill of the head shortens exactly the first maker. */
  lemma FlatAfterPartial(h: Heap, v: View, l: ListId, rk: Key, lk: Key, fill: nat, debit: nat)
    requires WellFormed(h, v) && l in v.prices && v.prices[l] != []
    requires lk == LevelKey(h.root.key, l, v.prices[l][0]) && lk in v.queue && v.queue[lk] != []
    requires rk == OrderKey(h.root.key, v.queue[lk][0]) && Fillable(h, rk, fill, debit) && fill > 0
    ensures fill < Flat(h, v, l)[0].remaining
    ensures Flat(PartlyFilled(h, rk, fill, debit), v, l) == Advance(Flat(h, v, l), fill)
  {
    hide Linked, NoStray, MakerOf, PartlyFilled, Fillable, QueueMakers, FlatLevels;
    var lk0, rk0 := HeadFacts(h, v, l);
    var h' := PartlyFilled(h, rk, fill, debit);
    var ps, q := v.prices[l], v.queue[lk];
    FlatHead(h, v, l);
    forall k ensures k != rk ==> MakerOf(h', k) == MakerOf(h, k) {
      PartialKeepsMaker(h, rk, fill, debit, k);
    }
    PartialKeepsMaker(h, rk, fill, debit, rk);
    forall p <- ps[1..], id <- QueueAt(v.queue, LevelKey(h.root.key, l, p)) ensures id != q[0] {
      assert LevelKey(h.root.key, l, p) != lk;
      OtherQueueIds(h, v, lk, LevelKey(h.root.key, l, p), id);
    }
    FlatFrame(h, h', l, ps[1..], v.queue, v.queue);
    QueueMakersFrame(h, h', q[1..]);
    QueueMakersStep(h', q);
    FlatLevelsStep(h', l, ps, v.queue);
    var tail := QueueMakers(h, q[1..]) + FlatLevels(h, l, ps[1..], v.queue);
    assert Flat(h, v, l) == [MakerOf(h, rk)] + tail && Flat(h', v, l) == [MakerOf(h', rk)] + tail;
  }

  lemma QueueMakersStep(h: Heap, q: seq<u64>)
    requires q != []
    ensures QueueMakers(h, q) == [MakerOf(h, OrderKey(h.root.key, q[0]))] + QueueMakers(h, q[1..])
  {
  }
}
