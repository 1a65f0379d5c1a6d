/**
 * Client-side search and validation of where a new order rests: every traversal is checked link by link, always
 * terminates, and on a well-formed side finds exactly the place the program accepts.
 */
module Placement {
  import opened Base
  import opened Settlement
  import opened BookHeap
  import opened Removal
  import opened Insertion
  import opened Instructions
  import opened Walk

  datatype PlacementTarget =
    | AppendTo(levelKey: Key, tailKey: Key, level: Level, tail: Order)
    | InsertBetween(better: Option<Level>, worse: Option<Level>)
    | FirstOnSide

  // -------------------------------------------------------------- the local gap check

  predicate NeighbourFits(root: Root, l: ListId, level: Level)
    requires Legal(root.kind, l)
  {
    && Best(root, l).Some?
    && var best := Best(root, l).value;
    && level.book == root.key && level.list == l
    && level.count > 0 && level.total > 0 && level.first.Some? && level.last.Some?
    && (best == level.price) == level.better.None?
    && NotBeforeBest(l.side, best, level.price)
  }

  /** `validatePredictionNeighbors`. */
  predicate NeighboursFit(root: Root, l: ListId, price: u64, better: Option<Level>, worse: Option<Level>)
    requires Legal(root.kind, l)
  {
    && Best(root, l).Some?
    && (better.Some? ==> NeighbourFits(root, l, better.value))
    && (worse.Some? ==> NeighbourFits(root, l, worse.value))
    && if better.None? && worse.Some? then
         Some(worse.value.price) == Best(root, l) && worse.value.better.None? && Precedes(l.side, price, worse.value.price)
       else if better.Some? && worse.Some? then
         && better.value.worse == Some(worse.value.price) && worse.value.better == Some(better.value.price)
         && Precedes(l.side, better.value.price, price) && Precedes(l.side, price, worse.value.price)
       else if better.Some? then better.value.worse.None? && Precedes(l.side, better.value.price, price)
       else false
  }

  /** The level account at position i of a list, if there is one. */
  function LevelAt(h: Heap, l: ListId, ps: seq<u64>, i: int): Option<Level> {
    if 0 <= i < |ps| && LevelKey(h.root.key, l, ps[i]) in h.levels then Some(h.levels[LevelKey(h.root.key, l, ps[i])]) else None
  }

  ghost predicate OwnAccount(h: Heap, l: ListId, level: Option<Level>) {
    level.Some? && level.value.list == l && level.value.book == h.root.key ==>
      LevelKey(h.root.key, l, level.value.price) in h.levels && level.value == h.levels[LevelKey(h.root.key, l, level.value.price)]
  }

  lemma NeighbourIndex(h: Heap, v: View, l: ListId, level: Level) returns (i: nat)
    requires WellFormed(h, v) && l in v.prices && Legal(h.root.kind, l)
    requires OwnAccount(h, l, Some(level)) && NeighbourFits(h.root, l, level)
    ensures i < |v.prices[l]| && v.prices[l][i] == level.price && LevelAt(h, l, v.prices[l], i) == Some(level)
    ensures level.better == Before(v.prices[l], i) && level.worse == After(v.prices[l], i)
  {
    var k := LevelKey(h.root.key, l, level.price);
    assert OwnLevel(h, v, k);
    i := IndexOf(v.prices[l], level.price);
    RungChecks(h, v, l, i);
    hide WellFormed, OnGrid;
  }

  lemma LevelFits(h: Heap, v: View, l: ListId, i: nat)
    requires WellFormed(h, v) && l in v.prices && i < |v.prices[l]|
    ensures Legal(h.root.kind, l)
    ensures LevelKey(h.root.key, l, v.prices[l][i]) in h.levels && LevelKey(h.root.key, l, v.prices[l][i]) in v.queue
    ensures var level := h.levels[LevelKey(h.root.key, l, v.prices[l][i])];
      && level.price == v.prices[l][i] && level.better == Before(v.prices[l], i) && level.worse == After(v.prices[l], i)
      && NeighbourFits(h.root, l, level)
  {
    var ps := v.prices[l];
    assert Ladder(h, l, ps) by { assert Ladders(h, v.prices); }
    RungChecks(h, v, l, i);
    LevelChecks(h, v, LevelKey(h.root.key, l, ps[i]));
    hide WellFormed;
    assert i > 0 ==> Precedes(l.side, ps[0], ps[i]);
  }

  lemma BetterNeighbour(h: Heap, v: View, l: ListId, price: u64, level: Level)
    requires WellFormed(h, v) && l in v.prices && Legal(h.root.kind, l)
    requires OwnAccount(h, l, Some(level)) && NeighbourFits(h.root, l, level) && Precedes(l.side, level.price, price)
    requires level.worse.Some? ==> Precedes(l.side, price, level.worse.value)
    ensures var ps := v.prices[l];
      var g := GapOf(l.side, ps, price);
      ps != [] && price !in ps && LevelAt(h, l, ps, g - 1) == Some(level) && level.worse == PriceAfter(ps, g)
  {
    RankedPrices(h, v, l);
    hide WellFormed, NeighbourFits;
    var i := NeighbourIndex(h, v, l, level);
    GapIsUnique(l.side, v.prices[l], price, i + 1);
  }

  lemma WorseNeighbour(h: Heap, v: View, l: ListId, price: u64, level: Level)
    requires WellFormed(h, v) && l in v.prices && Legal(h.root.kind, l)
    requires OwnAccount(h, l, Some(level)) && NeighbourFits(h.root, l, level) && Precedes(l.side, price, level.price)
    requires level.better.Some? ==> Precedes(l.side, level.better.value, price)
    ensures var ps := v.prices[l];
      var g := GapOf(l.side, ps, price);
      ps != [] && price !in ps && LevelAt(h, l, ps, g) == Some(level) && level.better == PriceBefore(ps, g)
  {
    RankedPrices(h, v, l);
    hide WellFormed, NeighbourFits;
    var i := NeighbourIndex(h, v, l, level);
    GapIsUnique(l.side, v.prices[l], price, i);
  }

  lemma AcceptedIsGap(h: Heap, v: View, l: ListId, price: u64, better: Option<Level>, worse: Option<Level>)
    requires WellFormed(h, v) && l in v.prices && Legal(h.root.kind, l)
    requires OwnAccount(h, l, better) && OwnAccount(h, l, worse) && NeighboursFit(h.root, l, price, better, worse)
    ensures var ps := v.prices[l];
      var g := GapOf(l.side, ps, price);
      ps != [] && price !in ps && better == LevelAt(h, l, ps, g - 1) && worse == LevelAt(h, l, ps, g)
  {
    hide WellFormed, NeighbourFits, OwnAccount, GapOf;
    if better.Some? { BetterNeighbour(h, v, l, price, better.value); }
    if worse.Some? { WorseNeighbour(h, v, l, price, worse.value); }
  }

  /** Against a well-formed side, the accepted neighbour pairs are exactly the one insertion gap. */
  lemma LocalGapIsGlobal(h: Heap, v: View, l: ListId, price: u64, better: Option<Level>, worse: Option<Level>)
    requires WellFormed(h, v) && l in v.prices && Legal(h.root.kind, l)
    requires OwnAccount(h, l, better) && OwnAccount(h, l, worse)
    ensures var ps := v.prices[l];
      var g := GapOf(l.side, ps, price);
      NeighboursFit(h.root, l, price, better, worse) <==>
        ps != [] && price !in ps && better == LevelAt(h, l, ps, g - 1) && worse == LevelAt(h, l, ps, g)
  {
    var ps := v.prices[l];
    FlatEmpty(h, v, l);
    assert Ladder(h, l, ps) by { assert Ladders(h, v.prices); }
    hide WellFormed, Rung, NeighbourFits, Ladder;
    var g := GapOf(l.side, ps, price);
    if NeighboursFit(h.root, l, price, better, worse) {
      AcceptedIsGap(h, v, l, price, better, worse);
    } else if ps != [] && price !in ps {
      RankedPrices(h, v, l);
      GapExists(l.side, ps, price);
      if g > 0 { LevelFits(h, v, l, g - 1); }
      if g < |ps| { LevelFits(h, v, l, g); }
    }
  }

  // ------------------------------------------------------------------ the bounded search

  /** The checks of one search step of `readPredictionPlacementTarget`. */
  predicate SearchReadable(h: Heap, l: ListId, cursor: u64, better: Option<Level>) {
    var k := LevelKey(h.root.key, l, cursor);
    && k in h.levels
    && var level := h.levels[k];
    level.price == cursor && level.book == h.root.key && level.list == l
    && level.better == (if better.None? then None else Some(better.value.price))
  }

  /** What the search must return: the queue tail, the gap if it lies within the bound, or an empty side. */
  ghost predicate FindsPlace(h: Heap, v: View, l: ListId, price: u64, bound: nat, r: Option<PlacementTarget>)
    requires l in v.prices
  {
    var ps := v.prices[l];
    var lk := LevelKey(h.root.key, l, price);
    if lk in v.queue then
      && v.queue[lk] != []
      && var tail := OrderKey(h.root.key, v.queue[lk][|v.queue[lk]| - 1]);
      lk in h.levels && tail in h.orders && r == Some(AppendTo(lk, tail, h.levels[lk], h.orders[tail]))
    else if ps == [] then r == Some(FirstOnSide)
    else
      var g := GapOf(l.side, ps, price);
      if Min(g, |ps| - 1) < bound then r == Some(InsertBetween(LevelAt(h, l, ps, g - 1), LevelAt(h, l, ps, g)))
      else r.None?
  }

  /** The search stands at level i; everything before it is better than the price. */
  ghost predicate Searching(h: Heap, v: View, l: ListId, price: u64, i: nat, cursor: u64, better: Option<Level>, seen: set<u64>)
  {
    && WellFormed(h, v) && l in v.prices && Legal(h.root.kind, l)
    && i < |v.prices[l]| && cursor == v.prices[l][i] && price !in v.prices[l]
    && better == LevelAt(h, l, v.prices[l], i - 1)
    && i <= GapOf(l.side, v.prices[l], price)
    && forall x <- seen :: x in v.prices[l][..i]
  }

  lemma SearchReads(h: Heap, v: View, l: ListId, price: u64, i: nat, cursor: u64, better: Option<Level>, seen: set<u64>)
    requires Searching(h, v, l, price, i, cursor, better, seen)
    ensures cursor !in seen && SearchReadable(h, l, cursor, better) && cursor != price
    ensures var current := h.levels[LevelKey(h.root.key, l, cursor)];
      && current.worse == After(v.prices[l], i)
      && (current.worse.Some? ==> Precedes(l.side, cursor, current.worse.value))
      && LevelAt(h, l, v.prices[l], i) == Some(current)
  {
    var ps := v.prices[l];
    hide WellFormed;
    RankedPrices(h, v, l);
    LevelFits(h, v, l, i) by { hide NeighbourFits; }
    if i > 0 { ListLevel(h, v, l, i - 1); }
    ListLevel(h, v, l, i);
    forall m | 0 <= m < i ensures ps[m] != ps[i] {
      assert Precedes(l.side, ps[m], ps[i]);
    }
  }

  /** One step: either the gap is here, or the search moves on by one level. */
  lemma SearchStep(h: Heap, v: View, l: ListId, price: u64, i: nat, cursor: u64, better: Option<Level>, seen: set<u64>)
    requires Searching(h, v, l, price, i, cursor, better, seen)
    ensures cursor !in seen && SearchReadable(h, l, cursor, better) && cursor != price
    ensures var ps := v.prices[l];
      var g := GapOf(l.side, ps, price);
      var current := h.levels[LevelKey(h.root.key, l, cursor)];
      && current.worse == After(ps, i)
      && (current.worse.Some? ==> Precedes(l.side, cursor, current.worse.value))
      && if Precedes(l.side, price, cursor) then
           g == i && better == LevelAt(h, l, ps, g - 1) && Some(current) == LevelAt(h, l, ps, g) && NeighboursFit(h.root, l, price, better, Some(current))
         else if current.worse.None? then
           g == |ps| == i + 1 && Some(current) == LevelAt(h, l, ps, g - 1) && LevelAt(h, l, ps, g).None? && NeighboursFit(h.root, l, price, Some(current), None)
         else Searching(h, v, l, price, i + 1, current.worse.value, Some(current), seen + {cursor})
  {
    hide WellFormed, NeighboursFit, SearchReadable;
    SearchReads(h, v, l, price, i, cursor, better, seen);
    RankedPrices(h, v, l);
    var ps := v.prices[l];
    assert ps[..i + 1] == ps[..i] + [ps[i]];
    if Precedes(l.side, price, cursor) {
      GapWithin(l.side, ps, price, i);
    } else {
      GapBeyond(l.side, ps, price, i);
    }
    GapFits(h, v, l, price);
  }

  lemma GapFits(h: Heap, v: View, l: ListId, price: u64)
    requires WellFormed(h, v) && l in v.prices && Legal(h.root.kind, l) && v.prices[l] != [] && price !in v.prices[l]
    ensures var g := GapOf(l.side, v.prices[l], price);
      NeighboursFit(h.root, l, price, LevelAt(h, l, v.prices[l], g - 1), LevelAt(h, l, v.prices[l], g))
  {
    hide WellFormed, NeighboursFit, NeighbourFits;
    var ps := v.prices[l];
    var g := GapOf(l.side, ps, price);
    if g > 0 { LevelFits(h, v, l, g - 1); ListLevel(h, v, l, g - 1); }
    if g < |ps| { LevelFits(h, v, l, g); ListLevel(h, v, l, g); }
    LocalGapIsGlobal(h, v, l, price, LevelAt(h, l, ps, g - 1), LevelAt(h, l, ps, g));
  }

  lemma ListLevel(h: Heap, v: View, l: ListId, i: nat)
    requires WellFormed(h, v) && l in v.prices && i < |v.prices[l]|
    ensures LevelKey(h.root.key, l, v.prices[l][i]) in h.levels
    ensures var level := h.levels[LevelKey(h.root.key, l, v.prices[l][i])]; level.list == l && level.book == h.root.key && level.price == v.prices[l][i]
  {
    RungChecks(h, v, l, i);
    LevelChecks(h, v, LevelKey(h.root.key, l, v.prices[l][i]));
  }

  lemma {:induction false} GapWithin(side: Side, ps: seq<u64>, price: nat, i: nat)
    requires Ranked(side, ps) && i < |ps| && Precedes(side, price, ps[i])
    ensures GapOf(side, ps, price) <= i
  {
    if i > 0 {
      assert Ranked(side, ps[1..]);
      GapWithin(side, ps[1..], price, i - 1);
    }
  }

  lemma {:induction false} GapBeyond(side: Side, ps: seq<u64>, price: nat, i: nat)
    requires Ranked(side, ps) && i < |ps| && price !in ps && !Precedes(side, price, ps[i])
    ensures i < GapOf(side, ps, price)
  {
    assert ps[i] in ps;
    if i > 0 {
      assert Precedes(side, ps[0], ps[i]);
      assert Ranked(side, ps[1..]);
      GapBeyond(side, ps[1..], price, i - 1);
    }
  }

  lemma SearchStarts(h: Heap, v: View, l: ListId, price: u64)
    requires WellFormed(h, v) && l in v.prices
    ensures Legal(h.root.kind, l) && Best(h.root, l) == Head(v.prices[l])
    ensures LevelKey(h.root.key, l, price) in h.levels <==> LevelKey(h.root.key, l, price) in v.queue
    ensures LevelKey(h.root.key, l, price) !in v.queue && v.prices[l] != [] ==>
      Searching(h, v, l, price, 0, v.prices[l][0], None, {})
    ensures var lk := LevelKey(h.root.key, l, price);
      lk in v.queue ==> v.queue[lk] != [] && h.levels[lk].last == Some(OrderKey(h.root.key, v.queue[lk][|v.queue[lk]| - 1]))
                        && OrderKey(h.root.key, v.queue[lk][|v.queue[lk]| - 1]) in h.orders
  {
    hide WellFormed;
    FlatEmpty(h, v, l);
    LevelExistsInQueue(h, v, LevelKey(h.root.key, l, price));
    if LevelKey(h.root.key, l, price) in v.queue {
      var q := v.queue[LevelKey(h.root.key, l, price)];
      QueueEnds(h, v, LevelKey(h.root.key, l, price)) by { BookIsLinked(h, v); }
      QueuedOrder(h, v, LevelKey(h.root.key, l, price), q[|q| - 1]) by { BookIsLinked(h, v); }
    } else if price in v.prices[l] {
      RungChecks(h, v, l, IndexOf(v.prices[l], price)) by { BookIsLinked(h, v); }
    }
  }

  /**
   * `readPredictionPlacementTarget` for any bound (the client uses 128): it succeeds on a well-formed side exactly when
   * the level exists or its gap is reached within the bound, and then returns exactly that place.
   */
  method ReadPlacementTarget(h: Heap, l: ListId, price: u64, bound: nat, ghost v: View) returns (r: Option<PlacementTarget>)
    requires Legal(h.root.kind, l)
    ensures WellFormed(h, v) && l in v.prices ==> FindsPlace(h, v, l, price, bound, r)
  {
    hide WellFormed, Searching, NeighboursFit, SearchReadable;
    ghost var good := WellFormed(h, v) && l in v.prices;
    if good { SearchStarts(h, v, l, price); }
    var levelKey := LevelKey(h.root.key, l, price);
    if levelKey !in h.levels {
      var best := Best(h.root, l);
      if best.None? { return Some(FirstOnSide); }
      var cursor: u64, better: Option<Level>, seen: set<u64> := best.value, None, {};
      for visited := 0 to bound
        invariant good ==> Searching(h, v, l, price, visited, cursor, better, seen)
      {
        if good { SearchStep(h, v, l, price, visited, cursor, better, seen); }
        if cursor in seen || !SearchReadable(h, l, cursor, better) { return None; }
        seen := seen + {cursor};
        SearchedLevel(h, l, cursor, better);
        var current := h.levels[LevelKey(h.root.key, l, cursor)];
        if current.price == price { return None; }
        if Precedes(l.side, price, current.price) {
          if !NeighboursFit(h.root, l, price, better, Some(current)) { return None; }
          return Some(InsertBetween(better, Some(current)));
        }
        if current.worse.None? {
          if !NeighboursFit(h.root, l, price, Some(current), None) { return None; }
          return Some(InsertBetween(Some(current), None));
        }
        if !Precedes(l.side, current.price, current.worse.value) { return None; }
        better := Some(current);
        cursor := current.worse.value;
      }
      if good { SearchExhausted(h, v, l, price, bound, cursor, better, seen); }
      return None;
    }
    var level := h.levels[levelKey];
    if level.last.None? || level.last.value !in h.orders { return None; }
    r := Some(AppendTo(levelKey, level.last.value, level, h.orders[level.last.value]));
  }

  lemma SearchedLevel(h: Heap, l: ListId, cursor: u64, better: Option<Level>)
    requires SearchReadable(h, l, cursor, better)
    ensures LevelKey(h.root.key, l, cursor) in h.levels && h.levels[LevelKey(h.root.key, l, cursor)].price == cursor
  {
  }

  lemma SearchExhausted(h: Heap, v: View, l: ListId, price: u64, i: nat, cursor: u64, better: Option<Level>, seen: set<u64>)
    requires Searching(h, v, l, price, i, cursor, better, seen)
    ensures l in v.prices && Min(GapOf(l.side, v.prices[l], price), |v.prices[l]| - 1) >= i
  {
  }

  // -------------------------------------------------------------- the unbounded search

  /** The checks of one step of `findPriceLevelNeighbors`. */
  predicate TrailReadable(h: Heap, l: ListId, cursor: u64, expectedBetter: Option<u64>) {
    var k := LevelKey(h.root.key, l, cursor);
    && k in h.levels
    && var level := h.levels[k];
    && level.book == h.root.key && level.list == l && level.price == cursor
    && level.better == expectedBetter
    && (expectedBetter.Some? ==> Precedes(l.side, expectedBetter.value, level.price))
  }

  ghost predicate Trailing(h: Heap, v: View, l: ListId, price: u64, i: nat, cursor: u64, expectedBetter: Option<u64>, betterLevel: Option<Key>,
                           visited: set<Key>)
  {
    && WellFormed(h, v) && l in v.prices
    && i < |v.prices[l]| && cursor == v.prices[l][i] && i <= GapOf(l.side, v.prices[l], price)
    && expectedBetter == PriceBefore(v.prices[l], i) && betterLevel == LevelLink(h.root.key, l, expectedBetter)
    && forall k <- visited :: k.LevelKey? && k.list == l && k.price in v.prices[l][..i]
  }

  lemma {:induction false} GapPrefix(side: Side, ps: seq<u64>, price: nat, m: nat)
    requires m < GapOf(side, ps, price)
    ensures Precedes(side, ps[m], price)
  {
    if m > 0 { GapPrefix(side, ps[1..], price, m - 1); }
  }

  lemma {:induction false} GapStops(side: Side, ps: seq<u64>, price: nat)
    requires GapOf(side, ps, price) < |ps|
    ensures !Precedes(side, ps[GapOf(side, ps, price)], price)
  {
    if Precedes(side, ps[0], price) { GapStops(side, ps[1..], price); }
  }

  /** What the unbounded search must return: the gap's two neighbours, or a failure when the price has a level. */
  ghost predicate FindsGap(h: Heap, v: View, l: ListId, price: u64, r: Option<(Option<Key>, Option<Key>)>)
    requires l in v.prices
  {
    var ps := v.prices[l];
    var g := GapOf(l.side, ps, price);
    if price in ps then r.None?
    else r == Some((LevelLink(h.root.key, l, PriceBefore(ps, g)), LevelLink(h.root.key, l, PriceAfter(ps, g))))
  }

  lemma TrailReads(h: Heap, v: View, l: ListId, price: u64, i: nat, cursor: u64, expectedBetter: Option<u64>, betterLevel: Option<Key>, visited: set<Key>)
    requires Trailing(h, v, l, price, i, cursor, expectedBetter, betterLevel, visited)
    ensures LevelKey(h.root.key, l, cursor) !in visited && TrailReadable(h, l, cursor, expectedBetter)
    ensures h.levels[LevelKey(h.root.key, l, cursor)].worse == After(v.prices[l], i)
  {
    var ps := v.prices[l];
    hide WellFormed, GapOf;
    RankedPrices(h, v, l);
    LevelFits(h, v, l, i) by { hide NeighbourFits; }
    ListLevel(h, v, l, i);
    forall m | 0 <= m < i ensures ps[m] != ps[i] {
      assert Precedes(l.side, ps[m], ps[i]);
    }
  }

  lemma TrailGap(side: Side, ps: seq<u64>, price: u64, i: nat)
    requires Ranked(side, ps) && i < |ps| && i <= GapOf(side, ps, price)
    ensures var g := GapOf(side, ps, price);
      if price == ps[i] then price in ps
      else if Precedes(side, price, ps[i]) then price !in ps && g == i
      else i < g && (i + 1 == |ps| ==> price !in ps && g == |ps|)
  {
    hide GapOf;
    var g := GapOf(side, ps, price);
    if i > 0 { GapPrefix(side, ps, price, i - 1); }
    if Precedes(side, price, ps[i]) {
      GapIsUnique(side, ps, price, i);
    } else if price != ps[i] {
      if g == i { GapStops(side, ps, price); }
      if i + 1 == |ps| { GapIsUnique(side, ps, price, i + 1); }
    }
  }

  /** One step of the unbounded search: it never meets a level twice, and decides or moves on. */
  lemma TrailStep(h: Heap, v: View, l: ListId, price: u64, i: nat, cursor: u64, expectedBetter: Option<u64>, betterLevel: Option<Key>, visited: set<Key>)
    requires Trailing(h, v, l, price, i, cursor, expectedBetter, betterLevel, visited)
    ensures LevelKey(h.root.key, l, cursor) !in visited && TrailReadable(h, l, cursor, expectedBetter)
    ensures var key := LevelKey(h.root.key, l, cursor);
      var worse := h.levels[key].worse;
      if price == cursor then FindsGap(h, v, l, price, None)
      else if Precedes(l.side, price, cursor) then FindsGap(h, v, l, price, Some((betterLevel, Some(key))))
      else if worse.None? then FindsGap(h, v, l, price, Some((Some(key), None)))
      else Trailing(h, v, l, price, i + 1, worse.value, Some(cursor), Some(key), visited + {key})
  {
    var ps := v.prices[l];
    hide WellFormed, GapOf, TrailReadable;
    TrailReads(h, v, l, price, i, cursor, expectedBetter, betterLevel, visited);
    RankedPrices(h, v, l);
    TrailGap(l.side, ps, price, i);
    if price != cursor && !Precedes(l.side, price, cursor) && i + 1 < |ps| {
      TrailNext(h, v, l, price, i, cursor, expectedBetter, betterLevel, visited);
    }
  }

  lemma TrailNext(h: Heap, v: View, l: ListId, price: u64, i: nat, cursor: u64, expectedBetter: Option<u64>, betterLevel: Option<Key>, visited: set<Key>)
    requires Trailing(h, v, l, price, i, cursor, expectedBetter, betterLevel, visited)
    requires i + 1 < |v.prices[l]| && i < GapOf(l.side, v.prices[l], price)
    ensures var key := LevelKey(h.root.key, l, cursor);
      Trailing(h, v, l, price, i + 1, v.prices[l][i + 1], Some(cursor), Some(key), visited + {key})
  {
    hide WellFormed, GapOf;
    assert v.prices[l][..i + 1] == v.prices[l][..i] + [v.prices[l][i]];
  }

  /**
   * `findPriceLevelNeighbors`: terminates on every account map, cyclic or malformed, because no level is read twice;
   * on a well-formed side it returns exactly the gap, or fails because the price already has a level.
   */
  method FindPriceLevelNeighbors(h: Heap, l: ListId, price: u64, best: Option<u64>, ghost v: View)
    returns (r: Option<(Option<Key>, Option<Key>)>)
    ensures WellFormed(h, v) && l in v.prices && best == Head(v.prices[l]) ==> FindsGap(h, v, l, price, r)
  {
    hide WellFormed, Trailing, TrailReadable, FindsGap;
    ghost var good := WellFormed(h, v) && l in v.prices && best == Head(v.prices[l]);
    if good { TrailStarts(h, v, l, price); }
    if best.None? { return Some((None, None)); }
    var visited: set<Key>, expectedBetter: Option<u64>, betterLevel: Option<Key>, cursor: u64 := {}, None, None, best.value;
    ghost var i: nat := 0;
    while true
      invariant visited <= h.levels.Keys
      invariant good ==> Trailing(h, v, l, price, i, cursor, expectedBetter, betterLevel, visited)
      decreases |h.levels.Keys - visited|
    {
      var key := LevelKey(h.root.key, l, cursor);
      if good { TrailStep(h, v, l, price, i, cursor, expectedBetter, betterLevel, visited); }
      if key in visited { return None; }
      if !TrailReadable(h, l, cursor, expectedBetter) { return None; }
      TrailedLevel(h, l, cursor, expectedBetter);
      SmallerWithout(h.levels.Keys, visited, key);
      visited := visited + {key};
      var level := h.levels[key];
      if price == level.price { return None; }
      if Precedes(l.side, price, level.price) { return Some((betterLevel, Some(key))); }
      if level.worse.None? { return Some((Some(key), None)); }
      expectedBetter, betterLevel, cursor := Some(level.price), Some(key), level.worse.value;
      i := i + 1;
    }
  }

  lemma TrailStarts(h: Heap, v: View, l: ListId, price: u64)
    requires WellFormed(h, v) && l in v.prices
    ensures if v.prices[l] == [] then FindsGap(h, v, l, price, Some((None, None)))
            else Trailing(h, v, l, price, 0, v.prices[l][0], None, None, {})
  {
  }

  lemma TrailedLevel(h: Heap, l: ListId, cursor: u64, expectedBetter: Option<u64>)
    requires TrailReadable(h, l, cursor, expectedBetter)
    ensures LevelKey(h.root.key, l, cursor) in h.levels && h.levels[LevelKey(h.root.key, l, cursor)].price == cursor
  {
  }

  lemma SmallerWithout(all: set<Key>, visited: set<Key>, k: Key)
    requires k in all && k !in visited
    ensures |all - (visited + {k})| < |all - visited|
  {
    assert all - visited == (all - (visited + {k})) + {k};
  }

  // ---------------------------------------------------------------------- depth

  /** The checks of one step of `readPredictionDepth`. */
  predicate DepthReadable(h: Heap, l: ListId, price: u64, previous: Option<u64>) {
    var k := LevelKey(h.root.key, l, price);
    && k in h.levels
    && var level := h.levels[k];
    && level.book == h.root.key && level.list == l && level.price == price && price > 0
    && level.count > 0 && level.total > 0 && level.first.Some? && level.last.Some?
    && level.better == previous
    && (level.worse.Some? ==> Precedes(l.side, price, level.worse.value))
  }

  lemma DepthStep(h: Heap, v: View, l: ListId, i: nat)
    requires WellFormed(h, v) && l in v.prices && i < |v.prices[l]|
    ensures DepthReadable(h, l, v.prices[l][i], PriceBefore(v.prices[l], i))
    ensures h.levels[LevelKey(h.root.key, l, v.prices[l][i])].worse == PriceAfter(v.prices[l], i + 1)
  {
    RankedPrices(h, v, l);
    RungChecks(h, v, l, i);
    LevelChecks(h, v, LevelKey(h.root.key, l, v.prices[l][i]));
    hide WellFormed;
  }

  lemma DepthLevel(h: Heap, l: ListId, price: u64, previous: Option<u64>)
    requires DepthReadable(h, l, price, previous)
    ensures LevelKey(h.root.key, l, price) in h.levels
  {
  }

  /**
   * `readPredictionDepth` for any limit (the client uses 20): on a well-formed side it returns exactly the best levels,
   * best first, and says that there are more exactly when some were cut off.
   */
  method ReadDepth(h: Heap, l: ListId, limit: nat, ghost v: View) returns (levels: seq<Level>, more: bool, ok: bool)
    requires Legal(h.root.kind, l)
    ensures |levels| <= limit
    ensures WellFormed(h, v) && l in v.prices ==>
      && ok && |levels| == Min(limit, |v.prices[l]|) && more == (|v.prices[l]| > limit)
      && forall i :: 0 <= i < |levels| ==> LevelAt(h, l, v.prices[l], i) == Some(levels[i])
  {
    hide WellFormed, DepthReadable;
    ghost var good := WellFormed(h, v) && l in v.prices;
    if good { SearchStarts(h, v, l, 0); }
    levels := [];
    var price, previous: Option<u64> := Best(h.root, l), None;
    while price.Some? && |levels| < limit
      invariant |levels| <= limit
      invariant good ==> |levels| <= |v.prices[l]| && price == PriceAfter(v.prices[l], |levels|) && previous == PriceBefore(v.prices[l], |levels|)
      invariant good ==> forall i :: 0 <= i < |levels| ==> LevelAt(h, l, v.prices[l], i) == Some(levels[i])
      decreases limit - |levels|
    {
      if good { DepthStep(h, v, l, |levels|); }
      if !DepthReadable(h, l, price.value, previous) { return levels, false, false; }
      DepthLevel(h, l, price.value, previous);
      var level := h.levels[LevelKey(h.root.key, l, price.value)];
      levels := levels + [level];
      previous, price := price, level.worse;
    }
    more, ok := price.Some?, true;
  }
}
