/**
 * `buildSharedTrade`: filter the level rows, sort them by price, fill the head's first order, repeat on local copies;
 * then place what is left next to the neighbours that sorting finds. The sorted head is always the list head after
 * the simulated fills, and the sorted neighbours are the list's own gap.
 */
module SharedTrade {
  import opened Base
  import opened Settlement
  import opened BookHeap
  import opened Removal
  import opened Insertion
  import opened Walk
  import opened SnapshotPlan

  datatype LevelRow = LevelRow(key: Key, account: Level)
  datatype OrderRow = OrderRow(key: Key, account: Order)

  datatype Placement = Placement(price: u64, quantity: nat, id: u64, hints: PlaceHints)
  datatype TradeStop = MakerLimit | ZeroNotional
  datatype TradePlan = TradePlan(matches: seq<SnapStep>, place: Option<Placement>, remaining: nat, fills: nat, stop: Option<TradeStop>)

  // ------------------------------------------------------------------ sorting by price

  /** A price and the row it came from. */
  datatype Priced = Priced(price: u64, row: nat)

  function InsertPriced(side: Side, x: Priced, s: seq<Priced>): (r: seq<Priced>)
    ensures |r| == |s| + 1
    ensures forall y :: y in r <==> y == x || y in s
  {
    if s == [] then [x]
    else if x.price == s[0].price || Precedes(side, x.price, s[0].price) then [x] + s
    else
      var rest := InsertPriced(side, x, s[1..]);
      assert s == [s[0]] + s[1..];
      [s[0]] + rest
  }

  /** The stable sort of `Array.prototype.sort`, best price first. */
  function SortPriced(side: Side, s: seq<Priced>): (r: seq<Priced>)
    ensures |r| == |s|
    ensures forall y :: y in r <==> y in s
  {
    if s == [] then []
    else
      assert s == [s[0]] + s[1..];
      InsertPriced(side, s[0], SortPriced(side, s[1..]))
  }

  function Prices(s: seq<Priced>): (r: seq<u64>)
    ensures |r| == |s| && forall i :: 0 <= i < |s| ==> r[i] == s[i].price
  {
    seq(|s|, i requires 0 <= i < |s| => s[i].price)
  }

  ghost predicate DistinctPrices(s: seq<Priced>) {
    forall i, j :: 0 <= i < j < |s| ==> s[i].price != s[j].price
  }

  lemma {:induction false} InsertPricedRanked(side: Side, x: Priced, s: seq<Priced>)
    requires Ranked(side, Prices(s))
    requires forall y <- s :: y.price != x.price
    ensures Ranked(side, Prices(InsertPriced(side, x, s)))
  {
    if s == [] || Precedes(side, x.price, s[0].price) {
    } else {
      assert s == [s[0]] + s[1..];
      var rest := InsertPriced(side, x, s[1..]);
      assert Ranked(side, Prices(s[1..])) by {
        forall i, j | 0 <= i < j < |s| - 1 ensures Precedes(side, s[1..][i].price, s[1..][j].price) {
          assert Precedes(side, Prices(s)[i + 1], Prices(s)[j + 1]);
        }
      }
      InsertPricedRanked(side, x, s[1..]);
      forall j | 0 <= j < |rest| ensures Precedes(side, s[0].price, rest[j].price) {
        assert rest[j] in rest;
        if rest[j] != x {
          var m :| 0 <= m < |s[1..]| && s[1..][m] == rest[j];
          assert Precedes(side, Prices(s)[0], Prices(s)[m + 1]);
        }
      }
      var r := [s[0]] + rest;
      forall i, j | 0 <= i < j < |r| ensures Precedes(side, Prices(r)[i], Prices(r)[j]) {
        if i > 0 { assert Precedes(side, Prices(rest)[i - 1], Prices(rest)[j - 1]); }
      }
    }
  }

  /** Sorting rows with distinct prices ranks them strictly. */
  lemma {:induction false} SortRanks(side: Side, s: seq<Priced>)
    requires DistinctPrices(s)
    ensures Ranked(side, Prices(SortPriced(side, s)))
  {
    if s != [] {
      SortRanks(side, s[1..]);
      InsertPricedRanked(side, s[0], SortPriced(side, s[1..]));
    }
  }

  /** A strict ranking is determined by its members. */
  lemma {:induction false} RankingUnique(side: Side, a: seq<u64>, b: seq<u64>)
    requires Ranked(side, a) && Ranked(side, b)
    requires forall x :: x in a <==> x in b
    ensures a == b
  {
    assert a == [] <==> b == [] by {
      if a != [] { assert a[0] in b; }
      if b != [] { assert b[0] in a; }
    }
    if a != [] {
      assert a[0] in b && b[0] in a;
      assert a[0] == b[0];
      var x := a[0];
      forall y ensures y in a[1..] <==> y in b[1..] {
        TailMembers(side, a, y);
        TailMembers(side, b, y);
      }
      RankingUnique(side, a[1..], b[1..]);
      assert a == [x] + a[1..] && b == [x] + b[1..];
    }
  }

  lemma TailMembers(side: Side, a: seq<u64>, y: u64)
    requires Ranked(side, a) && a != []
    ensures y in a[1..] <==> y in a && y != a[0]
  {
    if y in a && y != a[0] {
      var i :| 0 <= i < |a| && a[i] == y;
      assert a[1..][i - 1] == y;
    }
  }

  // ---------------------------------------------------------------- the row snapshot

  predicate Active(row: LevelRow, l: ListId) {
    row.account.list == l && row.account.count > 0
  }

  /** `levels.filter(...)`, as price and row number. */
  function Candidates(levels: seq<LevelRow>, l: ListId, from: nat): (r: seq<Priced>)
    requires from <= |levels|
    ensures forall x :: x in r <==> from <= x.row < |levels| && Active(levels[x.row], l) && x.price == levels[x.row].account.price
    ensures forall i, j :: 0 <= i < j < |r| ==> r[i].row < r[j].row
    decreases |levels| - from
  {
    if from == |levels| then []
    else if Active(levels[from], l) then [Priced(levels[from].account.price, from)] + Candidates(levels, l, from + 1)
    else Candidates(levels, l, from + 1)
  }

  function FindOrder(orders: seq<OrderRow>, k: Key, from: nat): (r: Option<nat>)
    requires from <= |orders|
    ensures r.Some? ==> r.value < |orders| && orders[r.value].key == k
    ensures r.None? ==> forall i :: from <= i < |orders| ==> orders[i].key != k
    decreases |orders| - from
  {
    if from == |orders| then None
    else if orders[from].key == k then Some(from)
    else FindOrder(orders, k, from + 1)
  }

  function FindLevel(levels: seq<LevelRow>, l: ListId, price: Option<u64>, from: nat): (r: Option<nat>)
    requires from <= |levels|
    ensures r.Some? ==> from <= r.value < |levels| && levels[r.value].account.list == l && price == Some(levels[r.value].account.price)
    ensures r.None? ==> forall i :: from <= i < |levels| ==> levels[i].account.list != l || price != Some(levels[i].account.price)
    decreases |levels| - from
  {
    if from == |levels| then None
    else if levels[from].account.list == l && price == Some(levels[from].account.price) then Some(from)
    else FindLevel(levels, l, price, from + 1)
  }

  predicate HasLevel(levels: seq<LevelRow>, k: Key) {
    exists i :: 0 <= i < |levels| && levels[i].key == k
  }

  predicate HasOrder(orders: seq<OrderRow>, k: Key) {
    exists i :: 0 <= i < |orders| && orders[i].key == k
  }

  /** What `readSharedBook` returns: every account of the book, once, in any order. */
  ghost predicate SnapshotOf(h: Heap, levels: seq<LevelRow>, orders: seq<OrderRow>) {
    && (forall i :: 0 <= i < |levels| ==> levels[i].key in h.levels && levels[i].key.book == h.root.key && levels[i].account == h.levels[levels[i].key])
    && (forall k <- h.levels :: k.book == h.root.key ==> HasLevel(levels, k))
    && (forall i, j :: 0 <= i < j < |levels| ==> levels[i].key != levels[j].key)
    && (forall i :: 0 <= i < |orders| ==> orders[i].key in h.orders && orders[i].account == h.orders[orders[i].key])
    && (forall k <- h.orders :: k.book == h.root.key ==> HasOrder(orders, k))
  }

  // ----------------------------------------------------- the local copies after some fills

  /** A level row when the fills stand before order j of level p: emptied levels stay, with count zero. */
  ghost predicate LocalCount(v: View, l: ListId, p: nat, j: nat, key: Key, account: Level)
    requires l in v.prices && p <= |v.prices[l]| && key in v.queue && key.LevelKey?
  {
    var ps, q := v.prices[l], v.queue[key];
    if key.price in ps[..p] then account.count == 0
    else if p < |ps| && key.price == ps[p] then account.count == |q| - j && (j < |q| ==> account.first == Some(OrderKey(key.book, q[j])))
    else account.count == |q| && |q| > 0 && account.first == Some(OrderKey(key.book, q[0]))
  }

  ghost predicate LocalLevel(h: Heap, v: View, l: ListId, p: nat, j: nat, row: LevelRow)
    requires l in v.prices && p <= |v.prices[l]|
  {
    && row.key in h.levels && row.key.LevelKey? && row.key.book == h.root.key && row.key in v.queue
    && row.key.list in v.prices && row.key.price in v.prices[row.key.list]
    && var o := h.levels[row.key];
    && o.list == row.key.list && o.price == row.key.price
    && row.account == o.(count := row.account.count, first := row.account.first, better := row.account.better)
    && if row.key.list == l then LocalCount(v, l, p, j, row.key, row.account) else row.account.count == |v.queue[row.key]| > 0
  }

  ghost predicate LocalLevels(h: Heap, v: View, l: ListId, p: nat, j: nat, levels: seq<LevelRow>)
    requires l in v.prices && p <= |v.prices[l]|
  {
    && (forall i {:trigger levels[i]} :: 0 <= i < |levels| ==> LocalLevel(h, v, l, p, j, levels[i]))
    && (forall k <- h.levels :: k.book == h.root.key ==> HasLevel(levels, k))
    && (forall i, j :: 0 <= i < j < |levels| ==> levels[i].key != levels[j].key)
  }

  /** Rows of makers not taken yet still carry the account's own values. */
  ghost predicate LocalOrders(h: Heap, touched: set<Key>, orders: seq<OrderRow>) {
    && (forall i {:trigger orders[i]} :: 0 <= i < |orders| ==>
          && orders[i].key in h.orders
          && var o := h.orders[orders[i].key];
          && orders[i].account == o.(remaining := orders[i].account.remaining, previous := orders[i].account.previous)
          && (orders[i].key !in touched ==> orders[i].account.remaining == o.remaining))
    && (forall k <- h.orders :: k.book == h.root.key && h.orders[k].status.Open? ==> HasOrder(orders, k))
  }

  lemma LevelRowFits(h: Heap, v: View, l: ListId, k: Key)
    requires WellFormed(h, v) && l in v.prices && k in h.levels && k.book == h.root.key
    ensures LocalLevel(h, v, l, 0, 0, LevelRow(k, h.levels[k]))
  {
    assert k in v.queue;
    assert OwnLevel(h, v, k);
    LevelChecks(h, v, k);
    QueueEnds(h, v, k);
    hide WellFormed, OnGrid;
  }

  lemma LocalStart(h: Heap, v: View, l: ListId, levels: seq<LevelRow>, orders: seq<OrderRow>)
    requires WellFormed(h, v) && l in v.prices && SnapshotOf(h, levels, orders)
    ensures LocalLevels(h, v, l, 0, 0, levels)
  {
    hide WellFormed, LocalLevel;
    forall i | 0 <= i < |levels| ensures LocalLevel(h, v, l, 0, 0, levels[i]) {
      LevelRowFits(h, v, l, levels[i].key);
      assert levels[i] == LevelRow(levels[i].key, h.levels[levels[i].key]);
    }
  }

  /** The row of a level of the view. */
  lemma RowOf(h: Heap, v: View, l: ListId, p: nat, j: nat, levels: seq<LevelRow>, k: Key) returns (i: nat)
    requires WellFormed(h, v) && l in v.prices && p <= |v.prices[l]| && LocalLevels(h, v, l, p, j, levels) && k in v.queue
    ensures i < |levels| && levels[i].key == k && k.LevelKey? && k.book == h.root.key && LocalLevel(h, v, l, p, j, levels[i])
  {
    LevelChecks(h, v, k) by { assert Linked(h, v); }
    hide WellFormed, LocalLevel, LevelCheck;
    assert HasLevel(levels, k);
    i :| 0 <= i < |levels| && levels[i].key == k;
  }

  lemma CandidatesDistinct(h: Heap, v: View, l: ListId, p: nat, j: nat, levels: seq<LevelRow>, l': ListId)
    requires l in v.prices && p <= |v.prices[l]| && LocalLevels(h, v, l, p, j, levels)
    ensures DistinctPrices(Candidates(levels, l', 0))
  {
    hide LocalCount, Candidates;
    var c := Candidates(levels, l', 0);
    forall i, m | 0 <= i < m < |c| ensures c[i].price != c[m].price {
      assert c[i] in c && c[m] in c;
      assert LocalLevel(h, v, l, p, j, levels[c[i].row]) && LocalLevel(h, v, l, p, j, levels[c[m].row]);
      assert levels[c[i].row].key != levels[c[m].row].key;
    }
  }

  /** An active row of the makers' side stands at the frontier level or beyond. */
  lemma ActiveAhead(h: Heap, v: View, l: ListId, p: nat, j: nat, row: LevelRow) returns (a: nat)
    requires l in v.prices && p <= |v.prices[l]| && LocalLevel(h, v, l, p, j, row) && Active(row, l)
    ensures p <= a < |v.prices[l]| && v.prices[l][a] == row.account.price && row.key == LevelKey(h.root.key, l, row.account.price)
  {
    a := IndexOf(v.prices[l], row.key.price);
    forall i | 0 <= i < p ensures v.prices[l][i] in v.prices[l][..p] {
      assert v.prices[l][..p][i] == v.prices[l][i];
    }
  }

  lemma RankedAt(side: Side, ps: seq<u64>, p: nat, a: nat)
    requires Ranked(side, ps) && p <= a < |ps|
    ensures a == p || Precedes(side, ps[p], ps[a])
  {
  }

  /** Filtering and sorting the rows finds exactly the list's head after the simulated fills. */
  lemma SortedHeadIsListHead(h: Heap, v: View, l: ListId, p: nat, j: nat, levels: seq<LevelRow>)
    requires WellFormed(h, v) && l in v.prices && p <= |v.prices[l]| && LocalLevels(h, v, l, p, j, levels)
    requires p < |v.prices[l]| ==> LevelKey(h.root.key, l, v.prices[l][p]) in v.queue && j < |v.queue[LevelKey(h.root.key, l, v.prices[l][p])]|
    ensures var c := SortPriced(l.side, Candidates(levels, l, 0));
      && (c == [] <==> p == |v.prices[l]|)
      && (c != [] ==> c[0].row < |levels| && levels[c[0].row].key == LevelKey(h.root.key, l, v.prices[l][p])
                      && LocalLevel(h, v, l, p, j, levels[c[0].row]) && c[0].price == v.prices[l][p] == levels[c[0].row].account.price)
  {
    hide WellFormed, LocalLevel, LocalLevels, Candidates, SortPriced, Ranked;
    var ps := v.prices[l];
    RankedPrices(h, v, l);
    var cands := Candidates(levels, l, 0);
    var c := SortPriced(l.side, cands);
    CandidatesDistinct(h, v, l, p, j, levels, l);
    forall i | 0 <= i < |levels| && Active(levels[i], l) ensures p < |ps| {
      LocalAt(h, v, l, p, j, levels, i);
      var a := ActiveAhead(h, v, l, p, j, levels[i]);
    }
    if p < |ps| {
      var i := RowOf(h, v, l, p, j, levels, LevelKey(h.root.key, l, ps[p]));
      FrontierActive(h, v, l, p, j, levels[i]);
      SortedHeadIsBest(l.side, cands, Priced(ps[p], i));
      LocalAt(h, v, l, p, j, levels, c[0].row);
      var a := ActiveAhead(h, v, l, p, j, levels[c[0].row]);
      RankedAt(l.side, ps, p, a);
    }
  }

  lemma SortedHeadIsBest(side: Side, s: seq<Priced>, x: Priced)
    requires DistinctPrices(s) && x in s
    ensures var c := SortPriced(side, s);
      c != [] && c[0] in s && (c[0].price == x.price || Precedes(side, c[0].price, x.price))
  {
    hide SortPriced;
    var c := SortPriced(side, s);
    SortRanks(side, s);
    var m :| 0 <= m < |c| && c[m] == x;
    if m > 0 { assert Precedes(side, Prices(c)[0], Prices(c)[m]); }
    assert c[0] in c;
  }

  lemma LocalAt(h: Heap, v: View, l: ListId, p: nat, j: nat, levels: seq<LevelRow>, i: nat)
    requires l in v.prices && p <= |v.prices[l]| && LocalLevels(h, v, l, p, j, levels) && i < |levels|
    ensures LocalLevel(h, v, l, p, j, levels[i])
  {
  }

  lemma FrontierActive(h: Heap, v: View, l: ListId, p: nat, j: nat, row: LevelRow)
    requires l in v.prices && p < |v.prices[l]| && LocalLevel(h, v, l, p, j, row) && row.key == LevelKey(h.root.key, l, v.prices[l][p])
    requires j < |v.queue[row.key]| && Ranked(l.side, v.prices[l])
    ensures Active(row, l) && row.account.price == v.prices[l][p]
    ensures row.account.count == |v.queue[row.key]| - j && row.account.first == Some(OrderKey(h.root.key, v.queue[row.key][j]))
  {
    var ps := v.prices[l];
    forall i | 0 <= i < p ensures ps[i] != ps[p] {
      assert Precedes(l.side, ps[i], ps[p]);
    }
  }

  // ------------------------------------------------------------- blocked and placement

  predicate Blocked(levels: seq<LevelRow>, l: ListId, limit: nat) {
    exists i :: 0 <= i < |levels| && Active(levels[i], l) && PricesCross(Opposite(l.side), limit, levels[i].account.price)
  }

  /** Some remaining level crosses exactly when the head does. */
  lemma BlockedExactly(h: Heap, v: View, l: ListId, p: nat, j: nat, levels: seq<LevelRow>, limit: nat)
    requires WellFormed(h, v) && l in v.prices && p <= |v.prices[l]| && LocalLevels(h, v, l, p, j, levels)
    requires p < |v.prices[l]| ==> LevelKey(h.root.key, l, v.prices[l][p]) in v.queue && j < |v.queue[LevelKey(h.root.key, l, v.prices[l][p])]|
    ensures Blocked(levels, l, limit) <==> p < |v.prices[l]| && PricesCross(Opposite(l.side), limit, v.prices[l][p])
  {
    hide WellFormed, LocalLevel, LocalLevels, Ranked;
    var ps := v.prices[l];
    RankedPrices(h, v, l);
    if Blocked(levels, l, limit) {
      var i :| 0 <= i < |levels| && Active(levels[i], l) && PricesCross(Opposite(l.side), limit, levels[i].account.price);
      LocalAt(h, v, l, p, j, levels, i);
      var a := ActiveAhead(h, v, l, p, j, levels[i]);
      RankedAt(l.side, ps, p, a);
    }
    if p < |ps| && PricesCross(Opposite(l.side), limit, ps[p]) {
      var i := RowOf(h, v, l, p, j, levels, LevelKey(h.root.key, l, ps[p]));
      FrontierActive(h, v, l, p, j, levels[i]);
    }
  }

  function FindPrice(s: seq<Priced>, price: u64): (r: Option<Priced>)
    ensures r.Some? ==> r.value in s && r.value.price == price
    ensures r.None? ==> forall x <- s :: x.price != price
  {
    if s == [] then None
    else if s[0].price == price then Some(s[0])
    else FindPrice(s[1..], price)
  }

  /** The neighbour accounts of a placement: the existing level's tail, or the sorted neighbours of a new price. */
  function PlaceHintsFor(levels: seq<LevelRow>, book: Pubkey, own: ListId, price: u64): PlaceHints {
    var same := Candidates(levels, own, 0);
    var existing := FindPrice(same, price);
    if existing.Some? then PlaceHints(levels[existing.value.row].account.last, None, None)
    else
      var rows := same + [Priced(price, |levels|)];
      var order := SortPriced(own.side, rows);
      assert Priced(price, |levels|) in order;
      var sorted := Prices(order);
      assert price in sorted by {
        var m :| 0 <= m < |order| && order[m] == Priced(price, |levels|);
        assert sorted[m] == price;
      }
      Neighbours(book, own, sorted, IndexOf(sorted, price))
  }

  function Neighbours(book: Pubkey, own: ListId, sorted: seq<u64>, at: nat): PlaceHints
    requires at < |sorted|
  {
    PlaceHints(None, if at > 0 then Some(LevelKey(book, own, sorted[at - 1])) else None,
               if at + 1 < |sorted| then Some(LevelKey(book, own, sorted[at + 1])) else None)
  }

  lemma NeighboursOfGap(book: Pubkey, own: ListId, ps: seq<u64>, price: u64)
    ensures var g := GapOf(own.side, ps, price);
      Neighbours(book, own, InsertAt(ps, g, price), g) == GapHints(book, own, ps, price)
  {
  }

  lemma OwnCandidate(h: Heap, v: View, l: ListId, p: nat, j: nat, levels: seq<LevelRow>, own: ListId, x: Priced)
    requires l in v.prices && p <= |v.prices[l]| && LocalLevels(h, v, l, p, j, levels) && own != l
    requires x in Candidates(levels, own, 0)
    ensures own in v.prices && x.price in v.prices[own] && x.row < |levels|
    ensures levels[x.row].key == LevelKey(h.root.key, own, x.price) && LevelKey(h.root.key, own, x.price) in h.levels
    ensures LevelKey(h.root.key, own, x.price) in v.queue
    ensures levels[x.row].account.last == h.levels[LevelKey(h.root.key, own, x.price)].last
  {
    hide LocalCount, Candidates;
    assert LocalLevel(h, v, l, p, j, levels[x.row]);
  }

  lemma OwnPrice(h: Heap, v: View, l: ListId, p: nat, j: nat, levels: seq<LevelRow>, own: ListId, price: u64) returns (i: nat)
    requires WellFormed(h, v) && l in v.prices && p <= |v.prices[l]| && LocalLevels(h, v, l, p, j, levels) && own != l
    requires own in v.prices && price in v.prices[own]
    ensures Priced(price, i) in Candidates(levels, own, 0)
  {
    RungChecks(h, v, own, IndexOf(v.prices[own], price)) by { assert Linked(h, v); }
    hide WellFormed, LocalLevels, LocalCount, Candidates;
    i := RowOf(h, v, l, p, j, levels, LevelKey(h.root.key, own, price));
  }

  /** On the taker's own side the sorted neighbours are the list's unique gap, and an existing level gives its tail. */
  lemma SortedNeighboursAreGap(h: Heap, v: View, l: ListId, p: nat, j: nat, levels: seq<LevelRow>, own: ListId, price: u64)
    requires WellFormed(h, v) && l in v.prices && p <= |v.prices[l]| && LocalLevels(h, v, l, p, j, levels)
    requires own in v.prices && own != l
    ensures var lk := LevelKey(h.root.key, own, price);
      if lk in v.queue then lk in h.levels && PlaceHintsFor(levels, h.root.key, own, price) == AppendHints(h, lk)
      else PlaceHintsFor(levels, h.root.key, own, price) == GapHints(h.root.key, own, v.prices[own], price)
  {
    var ps := v.prices[own];
    var lk := LevelKey(h.root.key, own, price);
    assert Ladder(h, own, ps) by { assert Ladders(h, v.prices); }
    assert lk in v.queue ==> price in ps by { if lk in v.queue { assert OwnLevel(h, v, lk); } }
    hide WellFormed, LocalLevels, Candidates, SortPriced, Rung, Neighbours, GapHints, Prices, InsertAt, GapOf;
    var same := Candidates(levels, own, 0);
    var existing := FindPrice(same, price);
    if existing.Some? {
      OwnCandidate(h, v, l, p, j, levels, own, existing.value);
    } else {
      if price in ps { var i := OwnPrice(h, v, l, p, j, levels, own, price); }
      NeighboursOfGap(h.root.key, own, ps, price);
      forall x <- same ensures x.price in ps {
        OwnCandidate(h, v, l, p, j, levels, own, x);
      }
      forall x <- ps ensures x in Prices(same) {
        var i := OwnPrice(h, v, l, p, j, levels, own, x);
        PriceMember(same, Priced(x, i));
      }
      CandidatesDistinct(h, v, l, p, j, levels, own);
      SortedGap(own.side, same, Priced(price, |levels|), ps);
    }
  }

  lemma PriceMember(s: seq<Priced>, x: Priced)
    requires x in s
    ensures x.price in Prices(s)
  {
    var m :| 0 <= m < |s| && s[m] == x;
    assert Prices(s)[m] == x.price;
  }

  lemma PriceRow(s: seq<Priced>, y: u64) returns (x: Priced)
    requires y in Prices(s)
    ensures x in s && x.price == y
  {
    var m :| 0 <= m < |s| && Prices(s)[m] == y;
    x := s[m];
  }

  /** Sorting a new price among the ranked prices of a list inserts it at the list's gap. */
  lemma SortedGap(side: Side, same: seq<Priced>, x: Priced, ps: seq<u64>)
    requires Ranked(side, ps) && x.price !in ps && DistinctPrices(same)
    requires forall y <- same :: y.price in ps
    requires forall y <- ps :: y in Prices(same)
    ensures Prices(SortPriced(side, same + [x])) == InsertAt(ps, GapOf(side, ps, x.price), x.price)
    ensures x.price in Prices(SortPriced(side, same + [x]))
    ensures IndexOf(Prices(SortPriced(side, same + [x])), x.price) == GapOf(side, ps, x.price)
  {
    hide SortPriced, Prices;
    var g := GapOf(side, ps, x.price);
    var sorted := Prices(SortPriced(side, same + [x]));
    var expected := InsertAt(ps, g, x.price);
    GapExists(side, ps, x.price);
    InsertKeepsRanked(side, ps, x.price, g);
    InsertMembers(ps, g, x.price);
    assert DistinctPrices(same + [x]) by {
      forall i | 0 <= i < |same| ensures same[i].price != x.price {
        assert same[i] in same;
      }
    }
    SortRanks(side, same + [x]);
    forall y ensures y in sorted <==> y in expected {
      SortedMembers(side, same, x, ps, y);
    }
    RankingUnique(side, sorted, expected);
    assert expected[g] == x.price;
    assert Distinct(expected);
    IndexOfAt(expected, g);
  }

  lemma SortedMembers(side: Side, same: seq<Priced>, x: Priced, ps: seq<u64>, y: u64)
    requires forall z <- same :: z.price in ps
    requires forall z <- ps :: z in Prices(same)
    ensures y in Prices(SortPriced(side, same + [x])) <==> y == x.price || y in ps
  {
    hide SortPriced;
    var order := SortPriced(side, same + [x]);
    if y in Prices(order) {
      var z := PriceRow(order, y);
      assert z in same + [x];
    }
    if y == x.price {
      assert x in same + [x];
      PriceMember(order, x);
    } else if y in ps {
      var z := PriceRow(same, y);
      assert z in same + [x];
      PriceMember(order, z);
    }
  }

  // -------------------------------------------------------------- one simulated fill

  datatype Taking = Taking(step: SnapStep, fill: nat, levels: seq<LevelRow>, orders: seq<OrderRow>)

  function NextPlace(v: View, book: Pubkey, l: ListId, p: nat, j: nat): (nat, nat)
    requires l in v.prices && p < |v.prices[l]|
  {
    if j + 1 < |QueueAt(v.queue, LevelKey(book, l, v.prices[l][p]))| then (p, j + 1) else (p + 1, 0)
  }

  ghost predicate HeadRow(h: Heap, v: View, l: ListId, p: nat, j: nat, levels: seq<LevelRow>, orders: seq<OrderRow>, touched: set<Key>, li: nat)
  {
    && l in v.prices && p < |v.prices[l]| && LocalLevels(h, v, l, p, j, levels) && LocalOrders(h, touched, orders)
    && li < |levels| && levels[li].key == LevelKey(h.root.key, l, v.prices[l][p])
    && levels[li].key in v.queue && j < |v.queue[levels[li].key]|
    && Ranked(l.side, v.prices[l])
    && levels[li].key in h.levels && h.levels[levels[li].key].worse == After(v.prices[l], p)
    && var k := OrderKey(h.root.key, v.queue[levels[li].key][j]);
    && k !in touched && k in h.orders && h.orders[k].status.Open? && k.book == h.root.key
    && h.orders[k].priceLevel == levels[li].key && h.orders[k].price == v.prices[l][p]
    && h.orders[k].next == OrderLink(h.root.key, After(v.queue[levels[li].key], j))
  }

  /** A better link is never read again, so clearing it keeps the rows right. */
  lemma BetterIrrelevant(h: Heap, v: View, l: ListId, p: nat, j: nat, row: LevelRow, better: Option<u64>)
    requires l in v.prices && p <= |v.prices[l]| && LocalLevel(h, v, l, p, j, row)
    ensures LocalLevel(h, v, l, p, j, row.(account := row.account.(better := better)))
  {
  }

  lemma ClearBetter(h: Heap, v: View, l: ListId, p: nat, j: nat, levels: seq<LevelRow>, i: nat)
    requires l in v.prices && p <= |v.prices[l]| && LocalLevels(h, v, l, p, j, levels) && i < |levels|
    ensures LocalLevels(h, v, l, p, j, levels[i := levels[i].(account := levels[i].account.(better := None))])
  {
    hide LocalLevel;
    var levels' := levels[i := levels[i].(account := levels[i].account.(better := None))];
    BetterIrrelevant(h, v, l, p, j, levels[i], None);
    forall m | 0 <= m < |levels'| ensures LocalLevel(h, v, l, p, j, levels'[m]) {
      if m != i { assert levels'[m] == levels[m]; }
    }
    KeysKept(h, levels, levels');
  }

  lemma KeysKept(h: Heap, levels: seq<LevelRow>, levels': seq<LevelRow>)
    requires |levels| == |levels'| && forall m :: 0 <= m < |levels| ==> levels'[m].key == levels[m].key
    requires forall k <- h.levels :: k.book == h.root.key ==> HasLevel(levels, k)
    ensures forall k <- h.levels :: k.book == h.root.key ==> HasLevel(levels', k)
  {
    forall k <- h.levels | k.book == h.root.key ensures HasLevel(levels', k) {
      assert HasLevel(levels, k);
      var m :| 0 <= m < |levels| && levels[m].key == k;
      assert levels'[m].key == k;
    }
  }

  /** A row after its head order is gone: the place moves on by one order. */
  lemma RowAdvances(h: Heap, v: View, l: ListId, p: nat, j: nat, levels: seq<LevelRow>, orders: seq<OrderRow>, touched: set<Key>, li: nat, m: nat)
    requires HeadRow(h, v, l, p, j, levels, orders, touched, li) && m < |levels| && LocalLevel(h, v, l, p, j, levels[m])
    ensures var place := NextPlace(v, h.root.key, l, p, j);
      var k := OrderKey(h.root.key, v.queue[levels[li].key][j]);
      && place.0 <= |v.prices[l]|
      && levels[li].account.count > 0
      && LocalLevel(h, v, l, place.0, place.1,
                    if m == li then levels[li].(account := levels[li].account.(count := levels[li].account.count - 1, first := h.orders[k].next))
                    else levels[m])
  {
    hide LocalLevels, LocalOrders;
    var ps := v.prices[l];
    LocalAt(h, v, l, p, j, levels, li);
    FrontierActive(h, v, l, p, j, levels[li]);
    assert ps[..p + 1] == ps[..p] + [ps[p]];
    RanksAfter(l.side, ps, p);
    if m != li { DistinctKeys(h, v, l, p, j, levels, m, li); }
    if j + 1 < |v.queue[levels[li].key]| {
    } else {
      assert ps[p] in ps[..p + 1];
    }
  }

  lemma DistinctKeys(h: Heap, v: View, l: ListId, p: nat, j: nat, levels: seq<LevelRow>, a: nat, b: nat)
    requires l in v.prices && p <= |v.prices[l]| && LocalLevels(h, v, l, p, j, levels) && a < |levels| && b < |levels| && a != b
    ensures levels[a].key != levels[b].key
  {
  }

  lemma RanksAfter(side: Side, ps: seq<u64>, p: nat)
    requires Ranked(side, ps) && p < |ps|
    ensures ps[p] !in ps[..p]
    ensures p + 1 < |ps| ==> ps[p + 1] !in ps[..p + 1]
  {
    forall i | 0 <= i < p ensures ps[i] != ps[p] {
      assert Precedes(side, ps[i], ps[p]);
    }
    if p + 1 < |ps| {
      forall i | 0 <= i < p + 1 ensures ps[i] != ps[p + 1] {
        assert Precedes(side, ps[i], ps[p + 1]);
      }
    }
  }

  lemma LevelsAdvance(h: Heap, v: View, l: ListId, p: nat, j: nat, levels: seq<LevelRow>, orders: seq<OrderRow>, touched: set<Key>, li: nat)
    requires HeadRow(h, v, l, p, j, levels, orders, touched, li)
    ensures var place := NextPlace(v, h.root.key, l, p, j);
      var k := OrderKey(h.root.key, v.queue[levels[li].key][j]);
      && place.0 <= |v.prices[l]|
      && levels[li].account.count > 0
      && LocalLevels(h, v, l, place.0, place.1,
                     levels[li := levels[li].(account := levels[li].account.(count := levels[li].account.count - 1, first := h.orders[k].next))])
  {
    hide LocalLevel, NextPlace;
    var place := NextPlace(v, h.root.key, l, p, j);
    var k := OrderKey(h.root.key, v.queue[levels[li].key][j]);
    RowAdvances(h, v, l, p, j, levels, orders, touched, li, li);
    var levels' := levels[li := levels[li].(account := levels[li].account.(count := levels[li].account.count - 1, first := h.orders[k].next))];
    forall m | 0 <= m < |levels'| ensures LocalLevel(h, v, l, place.0, place.1, levels'[m]) {
      assert LocalLevel(h, v, l, p, j, levels[m]);
      RowAdvances(h, v, l, p, j, levels, orders, touched, li, m);
    }
    KeysKept(h, levels, levels');
  }

  /** Writing a taken maker's remainder, or clearing a previous link, keeps the untouched rows right. */
  lemma OrdersAdvance(h: Heap, touched: set<Key>, orders: seq<OrderRow>, i: nat, remaining: u64, previous: Option<Key>)
    requires LocalOrders(h, touched, orders) && i < |orders|
    ensures LocalOrders(h, touched + {orders[i].key}, orders[i := orders[i].(account := orders[i].account.(remaining := remaining, previous := previous))])
    ensures remaining == orders[i].account.remaining ==>
      LocalOrders(h, touched, orders[i := orders[i].(account := orders[i].account.(remaining := remaining, previous := previous))])
  {
    var orders' := orders[i := orders[i].(account := orders[i].account.(remaining := remaining, previous := previous))];
    forall k <- h.orders | k.book == h.root.key && h.orders[k].status.Open? ensures HasOrder(orders', k) {
      assert HasOrder(orders, k);
      var m :| 0 <= m < |orders| && orders[m].key == k;
      assert orders'[m].key == k;
    }
  }

  /** The row of the head order, found by key. */
  lemma HeadOrderFound(h: Heap, v: View, l: ListId, p: nat, j: nat, levels: seq<LevelRow>, orders: seq<OrderRow>, touched: set<Key>, li: nat)
    requires HeadRow(h, v, l, p, j, levels, orders, touched, li)
    ensures var q := v.queue[levels[li].key];
      var k := OrderKey(h.root.key, q[j]);
      var oi := FindOrder(orders, k, 0);
      && levels[li].account.first == Some(k) && levels[li].account.count == |q| - j
      && levels[li].account.price == v.prices[l][p] && levels[li].account.worse == h.levels[levels[li].key].worse
      && levels[li].account.rentPayer == h.levels[levels[li].key].rentPayer
      && oi.Some? && orders[oi.value].account.owner == h.orders[k].owner && orders[oi.value].account.next == h.orders[k].next
      && orders[oi.value].account.remaining == h.orders[k].remaining
  {
    hide LocalLevels;
    LocalAt(h, v, l, p, j, levels, li);
    FrontierActive(h, v, l, p, j, levels[li]);
    var k := OrderKey(h.root.key, v.queue[levels[li].key][j]);
    assert HasOrder(orders, k);
    var m :| 0 <= m < |orders| && orders[m].key == k;
  }

  ghost function HeadKey(h: Heap, v: View, l: ListId, p: nat, j: nat): Key {
    if l in v.prices && p < |v.prices[l]| && LevelKey(h.root.key, l, v.prices[l][p]) in v.queue
       && j < |v.queue[LevelKey(h.root.key, l, v.prices[l][p])]|
    then OrderKey(h.root.key, v.queue[LevelKey(h.root.key, l, v.prices[l][p])][j])
    else OrderKey(h.root.key, 0)
  }

  /** One iteration after the head row is chosen: the match instruction and the local copies after it. */
  method TakeHead(levels: seq<LevelRow>, orders: seq<OrderRow>, li: nat, book: Pubkey, l: ListId, owner: Pubkey, remaining: nat,
                  ghost h: Heap, ghost v: View, ghost p: nat, ghost j: nat, ghost touched: set<Key>)
    returns (r: Option<Taking>)
    requires li < |levels| && levels[li].account.count > 0
    ensures r.Some? ==> r.value.fill <= remaining && r.value.step.fill == r.value.fill && r.value.step.before == remaining
    ensures r.Some? ==> r.value.step.price == levels[li].account.price
    ensures HeadRow(h, v, l, p, j, levels, orders, touched, li) && book == h.root.key ==>
      var k := HeadKey(h, v, l, p, j);
      k in h.orders && h.orders[k].priceLevel in h.levels && p < |v.prices[l]| &&
      var o := h.orders[k];
      var q := v.queue[o.priceLevel];
      var fill := Min(remaining, o.remaining);
      if o.owner == owner then r.None?
      else
        && r.Some? && r.value.fill == fill
        && r.value.step == StepFor(h, l, k, remaining, fill, fill == o.remaining && |q| - j == 1)
        && LocalOrders(h, touched + {k}, r.value.orders)
        && var place := if fill == o.remaining then NextPlace(v, h.root.key, l, p, j) else (p, j);
        place.0 <= |v.prices[l]| && LocalLevels(h, v, l, place.0, place.1, r.value.levels)
  {
    hide LocalLevels, LocalOrders, NextPlace;
    ghost var good := HeadRow(h, v, l, p, j, levels, orders, touched, li) && book == h.root.key;
    if good {
      HeadOrderFound(h, v, l, p, j, levels, orders, touched, li);
      LevelsAdvance(h, v, l, p, j, levels, orders, touched, li);
    }
    var level := levels[li].account;
    if level.first.None? { return None; }
    var found := FindOrder(orders, level.first.value, 0);
    if found.None? { return None; }
    var oi := found.value;
    var maker := orders[oi].account;
    if maker.owner == owner { return None; }
    var fill := Min(remaining, maker.remaining);
    var full := fill == maker.remaining;
    var last := full && level.count == 1;
    var step := SnapStep(orders[oi].key, levels[li].key, maker.owner, level.price, if full then maker.next else None,
                         if last then LevelLink(book, l, level.worse) else None, if last then Some(level.rentPayer) else None, remaining, fill);
    var orders' := orders[oi := orders[oi].(account := maker.(remaining := maker.remaining - fill))];
    var levels' := levels;
    if good { OrdersAdvance(h, touched, orders, oi, maker.remaining - fill, maker.previous); }
    assert maker.(remaining := maker.remaining - fill) == maker.(remaining := maker.remaining - fill, previous := maker.previous);
    if full {
      levels' := levels[li := levels[li].(account := level.(count := level.count - 1, first := maker.next))];
      if maker.next.Some? {
        var next := FindOrder(orders', maker.next.value, 0);
        if next.Some? {
          if good { OrdersAdvance(h, touched + {orders[oi].key}, orders', next.value, orders'[next.value].account.remaining, None); }
          assert orders'[next.value].account.(previous := None)
              == orders'[next.value].account.(remaining := orders'[next.value].account.remaining, previous := None);
          orders' := orders'[next.value := orders'[next.value].(account := orders'[next.value].account.(previous := None))];
        }
      }
    }
    if last {
      var worse := FindLevel(levels', l, level.worse, 0);
      if worse.Some? {
        if good {
          var place := NextPlace(v, h.root.key, l, p, j);
          ClearBetter(h, v, l, place.0, place.1, levels', worse.value);
        }
        levels' := levels'[worse.value := levels'[worse.value].(account := levels'[worse.value].account.(better := None))];
      }
    }
    r := Some(Taking(step, fill, levels', orders'));
  }

  // ------------------------------------------------------------------- the planner

  function OpenOnly(orders: seq<OrderRow>): (r: seq<OrderRow>)
    ensures forall x :: x in r <==> x in orders && x.account.status.Open?
  {
    if orders == [] then []
    else
      assert orders == [orders[0]] + orders[1..];
      if orders[0].account.status.Open? then [orders[0]] + OpenOnly(orders[1..]) else OpenOnly(orders[1..])
  }

  lemma OpenRows(h: Heap, levels: seq<LevelRow>, orders: seq<OrderRow>)
    requires SnapshotOf(h, levels, orders)
    ensures LocalOrders(h, {}, OpenOnly(orders))
  {
    hide OpenOnly;
    var r := OpenOnly(orders);
    forall i | 0 <= i < |r| ensures r[i].key in h.orders && r[i].account == h.orders[r[i].key] {
      assert r[i] in orders;
    }
    forall k <- h.orders | k.book == h.root.key && h.orders[k].status.Open? ensures HasOrder(r, k) {
      assert HasOrder(orders, k);
      var m :| 0 <= m < |orders| && orders[m].key == k;
      assert orders[m] in r;
    }
  }

  predicate ValidTrade(root: Root, own: ListId, price: int, quantity: int) {
    && 0 < price <= U64_MAX && 0 < quantity <= U64_MAX
    && root.tick > 0 && price % root.tick == 0 && root.lot > 0 && quantity % root.lot == 0
    && Legal(root.kind, own)
    && (root.kind.PredictionKind? ==> price < root.payout)
    && 0 < Notional(root.decimals, price, quantity) <= U64_MAX
  }

  /** The client accepts exactly the terms the program accepts, as far as they fit its account fields. */
  lemma ClientTermsExactly(root: Root, own: ListId, price: int, quantity: int)
    requires root.decimals <= MAX_SCALE_DECIMALS
    ensures ValidTrade(root, own, price, quantity)
      <==> 0 <= price <= U64_MAX && 0 <= quantity <= U64_MAX && OrderTerms(root, own, price, quantity).Some?
  {
    hide Notional;
  }

  /** What is left after the fills, and whether it may rest. */
  ghost predicate TradeAgrees(h: Heap, v: View, own: ListId, owner: Pubkey, price: u64, quantity: nat, cap: nat, r: Option<TradePlan>)
    requires OtherSide(own) in v.prices && own in v.prices
  {
    var l := OtherSide(own);
    var makers := Flat(h, v, l);
    var fills := Fills(own.side, price, makers, quantity, cap);
    var leftover := Leftover(own.side, price, makers, quantity, cap);
    var rest := Rest(own.side, price, makers, quantity, cap);
    var blocked := rest != [] && PricesCross(own.side, price, rest[0].price);
    var dust := leftover > 0 && Notional(h.root.decimals, price, leftover) == 0;
    && r.Some? == NoSelf(owner, fills)
    && (r.Some? ==>
          && SameSteps(h, l, r.value.matches, fills, quantity)
          && r.value.fills == |fills|
          && r.value.stop == (if blocked then Some(MakerLimit) else if dust then Some(ZeroNotional) else None)
          && r.value.remaining == (if blocked || dust then leftover else 0)
          && r.value.place.Some? == (leftover > 0 && !blocked && !dust)
          && (r.value.place.Some? ==>
                && r.value.place.value.price == price && r.value.place.value.quantity == leftover && r.value.place.value.id == h.root.nextId
                && var lk := LevelKey(h.root.key, own, price);
                if lk in v.queue then lk in h.levels && r.value.place.value.hints == AppendHints(h, lk)
                else r.value.place.value.hints == GapHints(h.root.key, own, v.prices[own], price)))
  }

  /** The simulated fills stand before order j of level p, with every counter of the traversal in place. */
  ghost predicate Ready(h: Heap, v: View, l: ListId, owner: Pubkey, limit: nat, quantity: nat, cap: nat, p: nat, j: nat, remaining: nat,
                        matches: seq<SnapStep>, done: seq<Taken>, seen: set<Key>, touched: set<Key>)
  {
    && l in v.prices && p <= |v.prices[l]|
    && if p < |v.prices[l]| then
         && LevelKey(h.root.key, l, v.prices[l][p]) in v.queue
         && var q := v.queue[LevelKey(h.root.key, l, v.prices[l][p])];
         && j < |q|
         && AtOrder(h, v, l, owner, limit, quantity, cap, p, j, remaining, matches, done, Some(OrderKey(h.root.key, q[j])),
                    OrderLink(h.root.key, Before(q, j)), |q| - j, SumRemaining(h.orders, h.root.key, q[j..]), seen, touched)
       else Frontier(h, v, l, owner, limit, quantity, cap, p, j, remaining, matches, done)
  }

  lemma ReadyAtLevel(h: Heap, v: View, l: ListId, owner: Pubkey, limit: nat, quantity: nat, cap: nat, p: nat, remaining: nat,
                     matches: seq<SnapStep>, done: seq<Taken>, currentPrice: Option<u64>, expectedBetter: Option<u64>, seen: set<Key>, touched: set<Key>)
    requires AtLevel(h, v, l, owner, limit, quantity, cap, p, remaining, matches, done, currentPrice, expectedBetter, seen, touched)
    ensures Ready(h, v, l, owner, limit, quantity, cap, p, 0, remaining, matches, done, seen, touched)
  {
    hide WellFormed, Reaches, LevelReadable, SameSteps, NoSelf, OrdersSeen, LevelsSeen;
    if currentPrice.Some? {
      EnterLevel(h, v, l, owner, limit, quantity, cap, p, remaining, matches, done, currentPrice.value, expectedBetter, seen, touched);
      LevelAhead(h, v, l, p, seen);
      var q := v.queue[LevelKey(h.root.key, l, v.prices[l][p])];
      assert q[0..] == q;
    }
  }

  lemma ReadyStarts(h: Heap, v: View, l: ListId, owner: Pubkey, limit: nat, quantity: nat, cap: nat)
    requires WellFormed(h, v) && l in v.prices && Legal(h.root.kind, l)
    ensures Ready(h, v, l, owner, limit, quantity, cap, 0, 0, quantity, [], [], {}, {})
  {
    hide WellFormed, AtLevel, Ready;
    WalkStarts(h, v, l, owner, limit, quantity, cap);
    ReadyAtLevel(h, v, l, owner, limit, quantity, cap, 0, quantity, [], [], Best(h.root, l), None, {}, {});
  }

  ghost predicate RestHead(h: Heap, v: View, l: ListId, p: nat, j: nat, rest: seq<Maker>) {
    && l in v.prices && p <= |v.prices[l]|
    && if p < |v.prices[l]| then
         && LevelKey(h.root.key, l, v.prices[l][p]) in v.queue && j < |v.queue[LevelKey(h.root.key, l, v.prices[l][p])]|
         && rest != [] && rest[0].price == v.prices[l][p]
       else rest == []
  }

  /** Between two iterations: what was taken is a prefix of the walk, and the local rows show what is left. */
  ghost predicate Filling(h: Heap, v: View, l: ListId, owner: Pubkey, limit: nat, quantity: nat, cap: nat, p: nat, j: nat, remaining: nat,
                          matches: seq<SnapStep>, done: seq<Taken>, rest: seq<Maker>, levels: seq<LevelRow>, orders: seq<OrderRow>,
                          seen: set<Key>, touched: set<Key>)
  {
    && WellFormed(h, v)
    && RestHead(h, v, l, p, j, rest)
    && Reaches(Opposite(l.side), limit, Flat(h, v, l), quantity, cap, done, rest, remaining)
    && SameSteps(h, l, matches, done, quantity) && NoSelf(owner, done)
    && LocalLevels(h, v, l, p, j, levels) && LocalOrders(h, touched, orders)
    && (remaining > 0 && |matches| < cap ==> Ready(h, v, l, owner, limit, quantity, cap, p, j, remaining, matches, done, seen, touched))
  }

  lemma FillStarts(h: Heap, v: View, l: ListId, owner: Pubkey, limit: nat, quantity: nat, cap: nat, levels: seq<LevelRow>, orders: seq<OrderRow>)
    requires WellFormed(h, v) && l in v.prices && Legal(h.root.kind, l) && SnapshotOf(h, levels, orders)
    ensures Filling(h, v, l, owner, limit, quantity, cap, 0, 0, quantity, [], [], Flat(h, v, l), levels, OpenOnly(orders), {}, {})
  {
    hide WellFormed, Ready, LocalLevels, LocalOrders, Flat, Reaches, SnapshotOf;
    ReadyStarts(h, v, l, owner, limit, quantity, cap);
    LocalStart(h, v, l, levels, orders);
    OpenRows(h, levels, orders);
    ReachesStart(Opposite(l.side), limit, Flat(h, v, l), quantity, cap);
    FlatStart(h, v, l);
  }

  lemma FlatStart(h: Heap, v: View, l: ListId)
    requires WellFormed(h, v) && l in v.prices
    ensures RestHead(h, v, l, 0, 0, Flat(h, v, l))
  {
    hide WellFormed, Suffix, Flat;
    SuffixStart(h, v, l);
    FlatEmpty(h, v, l);
    if v.prices[l] != [] {
      var lk, rk := HeadFacts(h, v, l);
      FrontierHead(h, v, l, 0, 0);
    }
  }

  lemma HeadIsReady(h: Heap, v: View, l: ListId, owner: Pubkey, limit: nat, quantity: nat, cap: nat, p: nat, j: nat, remaining: nat,
                    matches: seq<SnapStep>, done: seq<Taken>, rest: seq<Maker>, levels: seq<LevelRow>, orders: seq<OrderRow>,
                    seen: set<Key>, touched: set<Key>, li: nat)
    requires Filling(h, v, l, owner, limit, quantity, cap, p, j, remaining, matches, done, rest, levels, orders, seen, touched)
    requires remaining > 0 && |matches| < cap && p < |v.prices[l]|
    requires li < |levels| && levels[li].key == LevelKey(h.root.key, l, v.prices[l][p])
    ensures HeadRow(h, v, l, p, j, levels, orders, touched, li)
  {
    hide WellFormed, AtOrder, LocalLevels, LocalOrders, Flat, Reaches, SameSteps, NoSelf;
    var q := v.queue[LevelKey(h.root.key, l, v.prices[l][p])];
    var k := OrderKey(h.root.key, q[j]);
    MakerFacts(h, v, l, owner, limit, quantity, cap, p, j, remaining, matches, done, k, OrderLink(h.root.key, Before(q, j)), |q| - j,
               SumRemaining(h.orders, h.root.key, q[j..]), seen, touched);
    RankedPrices(h, v, l);
  }

  lemma FillBlocks(h: Heap, v: View, l: ListId, owner: Pubkey, limit: nat, quantity: nat, cap: nat, p: nat, j: nat, remaining: nat,
                   matches: seq<SnapStep>, done: seq<Taken>, rest: seq<Maker>, levels: seq<LevelRow>, orders: seq<OrderRow>,
                   seen: set<Key>, touched: set<Key>)
    requires Filling(h, v, l, owner, limit, quantity, cap, p, j, remaining, matches, done, rest, levels, orders, seen, touched)
    requires remaining > 0 && |matches| < cap && p < |v.prices[l]| && PricesCross(Opposite(l.side), limit, v.prices[l][p])
    ensures var k := HeadKey(h, v, l, p, j);
      k in h.orders && h.orders[k].owner == owner ==> !NoSelf(owner, Fills(Opposite(l.side), limit, Flat(h, v, l), quantity, cap))
  {
    hide WellFormed, AtOrder, LocalLevels, LocalOrders, Flat, Reaches, SameSteps, NoSelf, Fills, Leftover, Rest, StopReason;
    var q := v.queue[LevelKey(h.root.key, l, v.prices[l][p])];
    var k := OrderKey(h.root.key, q[j]);
    TakeMaker(h, v, l, owner, limit, quantity, cap, p, j, remaining, matches, done, k, OrderLink(h.root.key, Before(q, j)), |q| - j,
              SumRemaining(h.orders, h.root.key, q[j..]), seen, touched);
  }

  /** The next state after a fill of the head. */
  lemma FillStep(h: Heap, v: View, l: ListId, owner: Pubkey, limit: nat, quantity: nat, cap: nat, p: nat, j: nat, remaining: nat,
                 matches: seq<SnapStep>, done: seq<Taken>, rest: seq<Maker>, levels: seq<LevelRow>, orders: seq<OrderRow>,
                 seen: set<Key>, touched: set<Key>, taking: Taking)
    returns (p': nat, j': nat, rest': seq<Maker>, seen': set<Key>)
    requires Filling(h, v, l, owner, limit, quantity, cap, p, j, remaining, matches, done, rest, levels, orders, seen, touched)
    requires remaining > 0 && |matches| < cap && p < |v.prices[l]| && PricesCross(Opposite(l.side), limit, v.prices[l][p])
    requires HeadKey(h, v, l, p, j) in h.orders && h.orders[HeadKey(h, v, l, p, j)].priceLevel in h.levels
    requires var k := HeadKey(h, v, l, p, j);
      var o := h.orders[k];
      && o.owner != owner && o.priceLevel in v.queue
      && taking.fill == Min(remaining, o.remaining)
      && taking.step == StepFor(h, l, k, remaining, taking.fill, taking.fill == o.remaining && |v.queue[o.priceLevel]| - j == 1)
      && LocalOrders(h, touched + {k}, taking.orders)
      && var place := if taking.fill == o.remaining then NextPlace(v, h.root.key, l, p, j) else (p, j);
      place.0 <= |v.prices[l]| && LocalLevels(h, v, l, place.0, place.1, taking.levels)
    ensures var k := HeadKey(h, v, l, p, j);
      && 0 < taking.fill <= remaining
      && Filling(h, v, l, owner, limit, quantity, cap, p', j', remaining - taking.fill, matches + [taking.step],
                 done + [Taken(MakerOf(h, k), taking.fill)], rest', taking.levels, taking.orders, seen', touched + {k})
  {
    hide WellFormed, AtOrder, AtLevel, LocalLevels, LocalOrders, Flat, Reaches, SameSteps, NoSelf, Fills, Leftover, Rest, StopReason, SnapAgrees,
      MakerOf, StepFor, PricesCross, Suffix, Ready;
    ReadyOrder(h, v, l, owner, limit, quantity, cap, p, j, remaining, matches, done, seen, touched);
    var lk := LevelKey(h.root.key, l, v.prices[l][p]);
    var q := v.queue[lk];
    var k := OrderKey(h.root.key, q[j]);
    var o := h.orders[k];
    MakerFacts(h, v, l, owner, limit, quantity, cap, p, j, remaining, matches, done, k, OrderLink(h.root.key, Before(q, j)), |q| - j,
               SumRemaining(h.orders, h.root.key, q[j..]), seen, touched);
    TakeMaker(h, v, l, owner, limit, quantity, cap, p, j, remaining, matches, done, k, OrderLink(h.root.key, Before(q, j)), |q| - j,
              SumRemaining(h.orders, h.root.key, q[j..]), seen, touched);
    FrontierHead(h, v, l, p, j);
    var s := Suffix(h, l, v.prices[l], v.queue, p, j);
    rest' := Advance(s, taking.fill);
    OrderFrontier(h, v, l, owner, limit, quantity, cap, p, j, remaining, matches, done, k, OrderLink(h.root.key, Before(q, j)), |q| - j,
                  SumRemaining(h.orders, h.root.key, q[j..]), seen, touched);
    StepIsSame(h, l, k, remaining, taking.fill, taking.fill == o.remaining && |q| - j == 1);
    TakeAt(h, v, l, owner, limit, quantity, cap, p, j, remaining, matches, done, k, taking.step);
    p', j', seen' := p, j, seen;
    if taking.fill == o.remaining {
      p', j' := NextPlace(v, h.root.key, l, p, j).0, NextPlace(v, h.root.key, l, p, j).1;
      if j + 1 == |q| { seen' := seen + {lk}; }
      NextHead(h, v, l, p, j);
      if taking.fill < remaining && |matches| + 1 < cap {
        NextReady(h, v, l, owner, limit, quantity, cap, p, j, remaining - taking.fill, matches + [taking.step],
                  done + [Taken(MakerOf(h, k), taking.fill)], seen, touched + {k}, SumRemaining(h.orders, h.root.key, q[j..]) - o.remaining);
      }
    }
  }

  lemma ReadyOrder(h: Heap, v: View, l: ListId, owner: Pubkey, limit: nat, quantity: nat, cap: nat, p: nat, j: nat, remaining: nat,
                   matches: seq<SnapStep>, done: seq<Taken>, seen: set<Key>, touched: set<Key>)
    requires Ready(h, v, l, owner, limit, quantity, cap, p, j, remaining, matches, done, seen, touched) && p < |v.prices[l]|
    ensures LevelKey(h.root.key, l, v.prices[l][p]) in v.queue
    ensures var q := v.queue[LevelKey(h.root.key, l, v.prices[l][p])];
      && j < |q|
      && AtOrder(h, v, l, owner, limit, quantity, cap, p, j, remaining, matches, done, Some(OrderKey(h.root.key, q[j])),
                 OrderLink(h.root.key, Before(q, j)), |q| - j, SumRemaining(h.orders, h.root.key, q[j..]), seen, touched)
  {
  }

  lemma OrderFrontier(h: Heap, v: View, l: ListId, taker: Pubkey, limit: nat, quantity: nat, cap: nat, p: nat, j: nat, remaining: nat,
                      steps: seq<SnapStep>, done: seq<Taken>, k: Key, expectedPrevious: Option<Key>, count: nat, total: nat,
                      levels: set<Key>, orders: set<Key>)
    requires AtOrder(h, v, l, taker, limit, quantity, cap, p, j, remaining, steps, done, Some(k), expectedPrevious, count, total, levels, orders)
    ensures Frontier(h, v, l, taker, limit, quantity, cap, p, j, remaining, steps, done)
  {
  }

  /** The head of what is left after a complete fill. */
  lemma NextHead(h: Heap, v: View, l: ListId, p: nat, j: nat)
    requires WellFormed(h, v) && l in v.prices && p < |v.prices[l]|
    requires var lk := LevelKey(h.root.key, l, v.prices[l][p]); lk in v.queue && j < |v.queue[lk]|
    ensures var place := NextPlace(v, h.root.key, l, p, j);
      && place.0 <= |v.prices[l]|
      && RestHead(h, v, l, place.0, place.1, Suffix(h, l, v.prices[l], v.queue, place.0, place.1))
  {
    hide WellFormed, MakerOf, QueueMakers, FlatLevels;
    FrontierHead(h, v, l, p, j);
    var q := v.queue[LevelKey(h.root.key, l, v.prices[l][p])];
    if j + 1 < |q| {
      FrontierHead(h, v, l, p, j + 1);
    } else if p + 1 < |v.prices[l]| {
      FrontierHead(h, v, l, p + 1, 0);
    }
  }

  /** Where a complete fill leaves the traversal. */
  lemma NextReady(h: Heap, v: View, l: ListId, owner: Pubkey, limit: nat, quantity: nat, cap: nat, p: nat, j: nat, remaining: nat,
                  matches: seq<SnapStep>, done: seq<Taken>, seen: set<Key>, touched: set<Key>, total: nat)
    requires l in v.prices && p < |v.prices[l]|
    requires var lk := LevelKey(h.root.key, l, v.prices[l][p]); lk in v.queue && j < |v.queue[lk]|
    requires var lk := LevelKey(h.root.key, l, v.prices[l][p]);
      var q := v.queue[lk];
      var k := OrderKey(h.root.key, q[j]);
      if j + 1 < |q| then
        && total == SumRemaining(h.orders, h.root.key, q[j + 1..])
        && AtOrder(h, v, l, owner, limit, quantity, cap, p, j + 1, remaining, matches, done, OrderLink(h.root.key, After(q, j)), Some(k),
                   |q| - j - 1, total, seen, touched)
      else AtLevel(h, v, l, owner, limit, quantity, cap, p + 1, remaining, matches, done, After(v.prices[l], p), Some(v.prices[l][p]),
                   seen + {lk}, touched)
    ensures var place := NextPlace(v, h.root.key, l, p, j);
      var lk := LevelKey(h.root.key, l, v.prices[l][p]);
      Ready(h, v, l, owner, limit, quantity, cap, place.0, place.1, remaining, matches, done,
            if j + 1 < |v.queue[lk]| then seen else seen + {lk}, touched)
  {
    hide AtOrder, AtLevel;
    var lk := LevelKey(h.root.key, l, v.prices[l][p]);
    if j + 1 == |v.queue[lk]| {
      ReadyAtLevel(h, v, l, owner, limit, quantity, cap, p + 1, remaining, matches, done, After(v.prices[l], p), Some(v.prices[l][p]),
                   seen + {lk}, touched);
    }
  }

  /** When the loop ends, the walk has ended. */
  lemma FillStops(h: Heap, v: View, l: ListId, owner: Pubkey, limit: nat, quantity: nat, cap: nat, p: nat, j: nat, remaining: nat,
                  matches: seq<SnapStep>, done: seq<Taken>, rest: seq<Maker>, levels: seq<LevelRow>, orders: seq<OrderRow>,
                  seen: set<Key>, touched: set<Key>)
    requires Filling(h, v, l, owner, limit, quantity, cap, p, j, remaining, matches, done, rest, levels, orders, seen, touched)
    requires remaining == 0 || |matches| == cap || p == |v.prices[l]| || !PricesCross(Opposite(l.side), limit, v.prices[l][p])
    ensures Fills(Opposite(l.side), limit, Flat(h, v, l), quantity, cap) == done
    ensures Leftover(Opposite(l.side), limit, Flat(h, v, l), quantity, cap) == remaining
    ensures Rest(Opposite(l.side), limit, Flat(h, v, l), quantity, cap) == rest
    ensures SameSteps(h, l, matches, done, quantity) && NoSelf(owner, done) && |matches| == |done|
    ensures Blocked(levels, l, limit) <==> rest != [] && PricesCross(Opposite(l.side), limit, rest[0].price)
  {
    hide WellFormed, Ready, LocalLevels, LocalOrders, Flat, Reaches, Fills, Leftover, Rest, NoSelf, Blocked, PricesCross;
    StepsLength(h, l, matches, done, quantity);
    ReachesStop(Opposite(l.side), limit, Flat(h, v, l), quantity, cap, done, rest, remaining);
    BlockedExactly(h, v, l, p, j, levels, limit);
  }

  lemma FillingFacts(h: Heap, v: View, l: ListId, owner: Pubkey, limit: nat, quantity: nat, cap: nat, p: nat, j: nat, remaining: nat,
                     matches: seq<SnapStep>, done: seq<Taken>, rest: seq<Maker>, levels: seq<LevelRow>, orders: seq<OrderRow>,
                     seen: set<Key>, touched: set<Key>)
    requires Filling(h, v, l, owner, limit, quantity, cap, p, j, remaining, matches, done, rest, levels, orders, seen, touched)
    ensures l in v.prices && p <= |v.prices[l]| && LocalLevels(h, v, l, p, j, levels)
    ensures var c := SortPriced(l.side, Candidates(levels, l, 0));
      && (c == [] <==> p == |v.prices[l]|)
      && (c != [] ==> c[0].row < |levels| && levels[c[0].row].key == LevelKey(h.root.key, l, v.prices[l][p])
                      && levels[c[0].row].account.price == v.prices[l][p])
  {
    hide WellFormed, Ready, LocalLevels, LocalOrders, Flat, Reaches, SortPriced, Candidates;
    SortedHeadIsListHead(h, v, l, p, j, levels);
  }

  /**
   * `buildSharedTrade` for any cap: on a snapshot of a well-formed book it refuses exactly when the walk meets an own
   * order; otherwise its matches are the walk's, and what is left is posted with the exact hints the chain demands,
   * returned because crossing liquidity remains, or returned as dust.
   */
  method BuildSharedTrade(root: Root, levels0: seq<LevelRow>, orders0: seq<OrderRow>, owner: Pubkey, own: ListId, price: int, quantity: int,
                          cap: nat, ghost h: Heap, ghost v: View)
    returns (r: Option<TradePlan>)
    ensures !ValidTrade(root, own, price, quantity) ==> r.None?
    ensures r.Some? ==> |r.value.matches| <= cap && r.value.fills == |r.value.matches|
    ensures ValidTrade(root, own, price, quantity) && root == h.root && WellFormed(h, v) && SnapshotOf(h, levels0, orders0) ==>
      own in v.prices && OtherSide(own) in v.prices && TradeAgrees(h, v, own, owner, price, quantity, cap, r)
    ensures r.Some? ==> forall m <- r.value.matches :: if own.side.Bid? then m.price <= price else price <= m.price
  {
    hide WellFormed, Filling, SnapshotOf, PricesCross, Blocked, SortPriced, Candidates, PlaceHintsFor, StepFor, MakerOf, Fills, Leftover, Rest, Flat,
      LocalLevels, LocalOrders, HeadRow, SameSteps, OpenOnly, Notional, NextPlace, NoSelf, GapHints;
    if !ValidTrade(root, own, price, quantity) { return None; }
    ghost var good := root == h.root && WellFormed(h, v) && SnapshotOf(h, levels0, orders0);
    var l := OtherSide(own);
    var levels, orders, remaining: nat := levels0, OpenOnly(orders0), quantity;
    var matches: seq<SnapStep> := [];
    ghost var p: nat, j: nat, done: seq<Taken>, seen: set<Key>, touched: set<Key> := 0, 0, [], {}, {};
    ghost var rest: seq<Maker> := [];
    if good {
      BothSides(h, v, own);
      FillStarts(h, v, l, owner, price, quantity, cap, levels0, orders0);
      rest := Flat(h, v, l);
    }
    while remaining > 0 && |matches| < cap
      invariant |matches| <= cap
      invariant forall m <- matches :: PricesCross(own.side, price, m.price)
      invariant good ==> Filling(h, v, l, owner, price, quantity, cap, p, j, remaining, matches, done, rest, levels, orders, seen, touched)
      decreases cap - |matches|
    {
      if good { FillingFacts(h, v, l, owner, price, quantity, cap, p, j, remaining, matches, done, rest, levels, orders, seen, touched); }
      var candidates := SortPriced(l.side, Candidates(levels, l, 0));
      if candidates == [] { break; }
      assert candidates[0] in Candidates(levels, l, 0);
      var li := candidates[0].row;
      if !PricesCross(own.side, price, levels[li].account.price) { break; }
      if good {
        HeadIsReady(h, v, l, owner, price, quantity, cap, p, j, remaining, matches, done, rest, levels, orders, seen, touched, li);
        FillBlocks(h, v, l, owner, price, quantity, cap, p, j, remaining, matches, done, rest, levels, orders, seen, touched);
      }
      var taking := TakeHead(levels, orders, li, root.key, l, owner, remaining, h, v, p, j, touched);
      if taking.None? { return None; }
      if good {
        ghost var k := HeadKey(h, v, l, p, j);
        HeadLevel(h, v, l, p, j, levels, orders, touched, li);
        ghost var p', j', rest', seen' := FillStep(h, v, l, owner, price, quantity, cap, p, j, remaining, matches, done, rest, levels, orders, seen, touched,
                                                   taking.value);
        p, j, rest, seen, touched, done := p', j', rest', seen', touched + {k}, done + [Taken(MakerOf(h, k), taking.value.fill)];
      }
      matches := matches + [taking.value.step];
      remaining := remaining - taking.value.fill;
      levels, orders := taking.value.levels, taking.value.orders;
    }
    if good {
      FillingFacts(h, v, l, owner, price, quantity, cap, p, j, remaining, matches, done, rest, levels, orders, seen, touched);
      FillStops(h, v, l, owner, price, quantity, cap, p, j, remaining, matches, done, rest, levels, orders, seen, touched);
      SortedNeighboursAreGap(h, v, l, p, j, levels, own, price);
    }
    CrossedWithinLimit(own.side, price, matches);
    var blocked := Blocked(levels, l, price);
    var dust := remaining > 0 && Notional(root.decimals, price, remaining) == 0;
    var place: Option<Placement> := None;
    if remaining > 0 && !blocked && !dust {
      place := Some(Placement(price, remaining, root.nextId, PlaceHintsFor(levels, root.key, own, price)));
    }
    r := Some(TradePlan(matches, place, if blocked || dust then remaining else 0, |matches|,
                        if blocked then Some(MakerLimit) else if dust then Some(ZeroNotional) else None));
  }

  lemma CrossedWithinLimit(side: Side, price: nat, matches: seq<SnapStep>)
    requires forall m <- matches :: PricesCross(side, price, m.price)
    ensures forall m <- matches :: if side.Bid? then m.price <= price else price <= m.price
  {
  }

  lemma BothSides(h: Heap, v: View, own: ListId)
    requires WellFormed(h, v) && Legal(h.root.kind, own)
    ensures own in v.prices && OtherSide(own) in v.prices && OtherSide(own) != own && Opposite(OtherSide(own).side) == own.side
    ensures Legal(h.root.kind, OtherSide(own))
  {
    assert Legal(h.root.kind, OtherSide(own));
  }

  lemma HeadLevel(h: Heap, v: View, l: ListId, p: nat, j: nat, levels: seq<LevelRow>, orders: seq<OrderRow>, touched: set<Key>, li: nat)
    requires HeadRow(h, v, l, p, j, levels, orders, touched, li)
    ensures HeadKey(h, v, l, p, j) in h.orders && h.orders[HeadKey(h, v, l, p, j)].priceLevel in v.queue
  {
  }

  // ------------------------------------------------------------------ conservation

  lemma {:induction false} FillsPlusLeftover(side: Side, limit: nat, makers: seq<Maker>, quantity: nat, cap: nat)
    ensures Total(Fills(side, limit, makers, quantity, cap)) + Leftover(side, limit, makers, quantity, cap) == quantity
    decreases cap
  {
    hide PricesCross, Advance;
    if CanTake(side, limit, makers, quantity, cap) {
      FillsPlusLeftover(side, limit, Advance(makers, TakeFrom(makers, quantity)), quantity - TakeFrom(makers, quantity), cap - 1);
    }
  }

  /** Quantity is exactly the fills, plus what is posted, plus what is returned. */
  lemma TradeConservesQuantity(h: Heap, v: View, own: ListId, owner: Pubkey, price: u64, quantity: nat, cap: nat, r: Option<TradePlan>)
    requires OtherSide(own) in v.prices && own in v.prices
    requires TradeAgrees(h, v, own, owner, price, quantity, cap, r) && r.Some?
    ensures quantity == Total(Fills(own.side, price, Flat(h, v, OtherSide(own)), quantity, cap))
                        + (if r.value.place.Some? then r.value.place.value.quantity else 0) + r.value.remaining
  {
    hide PricesCross, Fills, Leftover, Rest, Flat, Notional;
    FillsPlusLeftover(own.side, price, Flat(h, v, OtherSide(own)), quantity, cap);
  }

  /**
   * The reported stop is the walk's cap boundary exactly when something is left. When the quantity is filled and
   * crossing liquidity remains, "maker-limit" is reported with nothing returned, where the other planners say "filled".
   */
  lemma MakerLimitExactly(h: Heap, v: View, own: ListId, owner: Pubkey, price: u64, quantity: nat, cap: nat, r: Option<TradePlan>)
    requires OtherSide(own) in v.prices && own in v.prices
    requires TradeAgrees(h, v, own, owner, price, quantity, cap, r) && r.Some?
    ensures var makers := Flat(h, v, OtherSide(own));
      var rest := Rest(own.side, price, makers, quantity, cap);
      var leftover := Leftover(own.side, price, makers, quantity, cap);
      var walk := StopReason(own.side, price, rest, leftover);
      && (r.value.stop == Some(MakerLimit) && leftover > 0 <==> walk == MatchCap)
      && (r.value.stop == Some(MakerLimit) && leftover == 0 <==>
            walk == Stop.Filled && rest != [] && PricesCross(own.side, price, rest[0].price))
      && (r.value.place.Some? ==> PredictionPlan.CanPostRemainder(leftover, walk))
  {
    hide PricesCross, Fills, Leftover, Rest, Flat, Notional;
  }
}
