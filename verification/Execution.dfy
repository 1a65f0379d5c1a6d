/**
 * Planned transactions meet the program: executing the planned instructions one by one on the exchange performs the
 * walk, their routing accounts are exactly the ones demanded at that point, and the posted remainder never crosses.
 */
module Execution {
  import opened Base
  import opened Settlement
  import opened BookHeap
  import opened Removal
  import opened Updates
  import opened Insertion
  import opened Ledger
  import opened Instructions
  import opened Exchange
  import opened Walk
  import opened SnapshotPlan
  import opened SharedTrade

  function RouteHints(route: Route): Hints {
    Hints(None, route.next, None, route.worse, route.recipient)
  }

  lemma FeeKeepsMakers(h: Heap, v: View, l: ListId, fee: nat)
    requires l in v.prices
    ensures Flat(WithFee(h, fee), v, l) == Flat(h, v, l)
  {
    FlatFrame(WithFee(h, fee), h, l, v.prices[l], v.queue, v.queue);
  }

  /** The accepted maker is the walk's next one, and its whole record is visible to the planners. */
  lemma HeadRecord(h: Heap, v: View, l: ListId, rk: Key, lk: Key)
    requires WellFormed(h, v) && IsHead(h, v, l, rk, lk)
    ensures l in v.prices && rk in h.orders && h.orders[rk].priceLevel == lk && lk in h.levels
    ensures Flat(h, v, l) != [] && Flat(h, v, l)[0] == MakerOf(h, rk)
    ensures var o := h.orders[rk];
      var m := MakerOf(h, rk);
      && m.key == rk && m.owner == o.owner && m.price == o.price && m.remaining == o.remaining && m.next == o.next && o.remaining > 0
      && lk == LevelKey(h.root.key, l, o.price)
      && (forall base: nat :: RouteHints(RouteOf(m, base)) == if base < o.remaining then Hints(None, None, None, None, None) else ClientHints(h, rk))
  {
    hide Linked, NoStray;
    var lk0, rk0 := HeadFacts(h, v, l);
    QueueEnds(h, v, lk);
    PredictionPlan.SoundOrderIsValid(h, v, lk, 0);
  }

  /** An accepted match takes exactly the walk's next fill, with exactly its routing, and leaves the advanced sequence. */
  lemma MatchIsOneFill(h: Heap, v: View, funds: Funds, elsewhere: map<Purse, nat>, taker: Pubkey, outcome: Outcome, side: Side, limit: u64,
                       quantity: u64, bps: nat, rk: Key, lk: Key, hints: Hints)
    requires Consistent(h, v, funds, elsewhere)
    requires MatchAccepted(h, v, funds, taker, outcome, side, limit, quantity, bps, rk, lk, hints)
    ensures var l := ListId(outcome, Opposite(side));
      var plan := MatchPlan(h, side, limit, quantity, rk);
      var h' := MatchedHeap(h, rk, plan, bps);
      var v' := MatchedView(v, rk, lk, plan);
      && l in v.prices && l in v'.prices
      && var makers := Flat(h, v, l);
      && makers != [] && makers[0].key == rk && makers[0].owner != taker && PricesCross(side, limit, makers[0].price)
      && var base := TakeFrom(makers, quantity);
      && 0 < base <= makers[0].remaining
      && hints == RouteHints(RouteOf(makers[0], base))
      && Flat(h', v', l) == Advance(makers, base)
  {
    hide Consistent, WellFormed, OrderTerms, PricesCross, Notional, CalculateTakerFee, Backed, MatchPlan, SettleFunds, RemoveChecks, Detachable,
      Fillable, IsHead, RouteOf, MakerOf, Detached, ClientHints, Retired, PartlyFilled, OnGrid;
    ConsistentIsWellFormed(h, v, funds, elsewhere);
    var l := ListId(outcome, Opposite(side));
    MatchKeepsConsistent(h, v, funds, elsewhere, taker, outcome, side, limit, quantity, bps, rk, lk, hints);
    TermsNeedScale(h.root, ListId(outcome, side), limit, quantity);
    TermsBackOrder(h.root, ListId(outcome, side), limit, quantity);
    ListInView(h, v, l);
    HeadIsMaker(h, v, l, rk, lk);
    HeadSettlement(h, side, limit, quantity, rk);
    HeadRecord(h, v, l, rk, lk);
    HeadPlace(h, v, l, rk, lk);
    var plan := MatchPlan(h, side, limit, quantity, rk).value;
    var fee := TakerFee(Ok(plan), bps).value;
    if plan.makerFull {
      FlatAfterRetire(h, v, l, rk, lk, FilledOrder(h.orders[rk]));
      FeeKeepsMakers(Retired(h, rk, FilledOrder(h.orders[rk])), Deleted(v, lk, rk.id), l, fee);
    } else {
      FlatAfterPartial(h, v, l, rk, lk, plan.fill.base, plan.debit);
      FeeKeepsMakers(PartlyFilled(h, rk, plan.fill.base, plan.debit), v, l, fee);
    }
  }

  lemma HeadPlace(h: Heap, v: View, l: ListId, rk: Key, lk: Key)
    requires IsHead(h, v, l, rk, lk)
    ensures l in v.prices && v.prices[l] != [] && lk == LevelKey(h.root.key, l, v.prices[l][0])
    ensures lk in v.queue && v.queue[lk] != [] && rk == OrderKey(h.root.key, v.queue[lk][0])
  {
  }

  /** Everything about a fill except which accounts the instruction names. */
  ghost predicate Settles(h: Heap, funds: Funds, taker: Pubkey, outcome: Outcome, side: Side, limit: u64, quantity: u64, bps: nat, rk: Key) {
    && OrderTerms(h.root, ListId(outcome, side), limit, quantity).Some?
    && rk in h.orders
    && var o := h.orders[rk];
    var base := Min(quantity, o.remaining);
    var plan := MatchPlan(h, side, limit, quantity, rk);
    && o.owner != taker && o.locked > 0 && PricesCross(side, limit, o.price)
    && 0 < Notional(h.root.decimals, o.price, base) <= U64_MAX
    && bps <= MAX_TAKER_FEE_BPS
    && TakerFee(plan, bps).Some? && h.root.fees + TakerFee(plan, bps).value <= U64_MAX
    && MatchedFunds(h, funds, taker, side, rk, plan, bps).Some?
    && (base == o.remaining ==> PositiveLock(h, o.next))
  }

  /**
   * The accounts a planner routes for its next maker are exactly the ones the program demands there: such an
   * instruction can only fail for funds, fees, locks or values, never for its links.
   */
  lemma PlannedRouteIsDemanded(h: Heap, v: View, funds: Funds, taker: Pubkey, outcome: Outcome, side: Side, limit: u64, quantity: u64, bps: nat)
    requires WellFormed(h, v) && ListId(outcome, Opposite(side)) in v.prices && v.prices[ListId(outcome, Opposite(side))] != []
    ensures var l := ListId(outcome, Opposite(side));
      && Flat(h, v, l) != []
      && var m := Flat(h, v, l)[0];
      var lk, hints := LevelKey(h.root.key, l, m.price), RouteHints(RouteOf(m, Min(quantity, m.remaining)));
      MatchAccepted(h, v, funds, taker, outcome, side, limit, quantity, bps, m.key, lk, hints)
      == Settles(h, funds, taker, outcome, side, limit, quantity, bps, m.key)
  {
    hide WellFormed, OrderTerms, PricesCross, Notional, MatchPlan, MatchedFunds, RouteOf, MakerOf, ClientHints;
    var l := ListId(outcome, Opposite(side));
    var lk, rk := HeadFacts(h, v, l);
    assert IsHead(h, v, l, rk, lk);
    HeadRecord(h, v, l, rk, lk);
  }

  // -------------------------------------------------------------- the taker's own side

  /** What a later placement reads: counters, increments and the levels of its own list. */
  ghost predicate OwnSideKept(h: Heap, v: View, h': Heap, v': View, own: ListId) {
    && h'.root == h.root.(best := h'.root.best, open := h'.root.open, fees := h'.root.fees)
    && own in v.prices && own in v'.prices && v'.prices[own] == v.prices[own]
    && forall p: u64 :: OwnLevelKept(h, v, h', v', LevelKey(h.root.key, own, p))
  }

  ghost predicate OwnLevelKept(h: Heap, v: View, h': Heap, v': View, k: Key) {
    && (k in v'.queue <==> k in v.queue)
    && (k in h'.levels <==> k in h.levels)
    && (k in h.levels && k in h'.levels ==> h'.levels[k].last == h.levels[k].last)
  }

  lemma OwnSideChain(h: Heap, v: View, h1: Heap, v1: View, h2: Heap, v2: View, own: ListId)
    requires OwnSideKept(h, v, h1, v1, own) && OwnSideKept(h1, v1, h2, v2, own)
    ensures OwnSideKept(h, v, h2, v2, own)
  {
    forall p: u64 ensures OwnLevelKept(h, v, h2, v2, LevelKey(h.root.key, own, p)) {
      assert OwnLevelKept(h, v, h1, v1, LevelKey(h.root.key, own, p));
      assert OwnLevelKept(h1, v1, h2, v2, LevelKey(h.root.key, own, p));
    }
  }

  lemma MatchKeepsOwnSide(h: Heap, v: View, rk: Key, lk: Key, plan: Result<Plan>, bps: nat, own: ListId)
    requires plan.Ok? && rk in h.orders && h.orders[rk].priceLevel == lk && lk in h.levels && own in v.prices
    requires lk.LevelKey? && lk.list != own && h.levels[lk].list == lk.list && h.levels[lk].book == h.root.key
    requires plan.value.makerFull ==> Detachable(h, rk) && rk.OrderKey? && Stands(v, lk, rk.id)
    ensures OwnSideKept(h, v, MatchedHeap(h, rk, plan, bps), MatchedView(v, rk, lk, plan), own)
  {
    var h', v' := MatchedHeap(h, rk, plan, bps), MatchedView(v, rk, lk, plan);
    forall p: u64 ensures OwnLevelKept(h, v, h', v', LevelKey(h.root.key, own, p)) {
    }
  }

  // ------------------------------------------------------------------ whole transactions

  lemma AcceptedFacts(h: Heap, v: View, funds: Funds, elsewhere: map<Purse, nat>, taker: Pubkey, own: ListId, limit: u64,
                      quantity: u64, bps: nat, rk: Key, lk: Key, hints: Hints)
    requires Consistent(h, v, funds, elsewhere)
    requires MatchAccepted(h, v, funds, taker, own.outcome, own.side, limit, quantity, bps, rk, lk, hints)
    ensures own in v.prices
    ensures var plan := MatchPlan(h, own.side, limit, quantity, rk);
      OwnSideKept(h, v, MatchedHeap(h, rk, plan, bps), MatchedView(v, rk, lk, plan), own)
  {
    hide Consistent, WellFormed, OrderTerms, PricesCross, Notional, CalculateTakerFee, Backed, MatchPlan, SettleFunds, Detachable,
      Fillable, IsHead, MatchedHeap, MatchedView, ClientHints, OwnSideKept;
    ConsistentIsWellFormed(h, v, funds, elsewhere);
    MatchKeepsConsistent(h, v, funds, elsewhere, taker, own.outcome, own.side, limit, quantity, bps, rk, lk, hints);
    TermsNeedScale(h.root, own, limit, quantity);
    ListInView(h, v, own);
    var l := ListId(own.outcome, Opposite(own.side));
    HeadPlace(h, v, l, rk, lk);
    LevelChecks(h, v, lk) by { hide NoStray, Ladders, Queues, LevelCheck; assert Linked(h, v) by { BookIsLinked(h, v); } }
    MatchKeepsOwnSide(h, v, rk, lk, MatchPlan(h, own.side, limit, quantity, rk), bps, own) by {
      CheckedLevelBook(h, lk);
    }
  }

  lemma CheckedLevelBook(h: Heap, lk: Key)
    requires LevelCheck(h, lk)
    ensures h.levels[lk].book == h.root.key
  {
  }

  // ------------------------------------------------------------ when a transaction succeeds

  ghost function AfterMatch(s: Scene, owner: Pubkey, own: ListId, price: u64, bps: nat, m: SnapStep): Scene {
    if m.before > U64_MAX then s
    else
      var plan := MatchPlan(s.heap, own.side, price, m.before, m.maker);
      var funds := MatchedFunds(s.heap, s.funds, owner, own.side, m.maker, plan, bps);
      Scene(MatchedHeap(s.heap, m.maker, plan, bps), MatchedView(s.view, m.maker, m.level, plan), if funds.Some? then funds.value else s.funds)
  }

  ghost predicate StepSettles(s: Scene, owner: Pubkey, own: ListId, price: u64, bps: nat, m: SnapStep) {
    m.before <= U64_MAX && Settles(s.heap, s.funds, owner, own.outcome, own.side, price, m.before, bps, m.maker)
  }

  /** Each planned match settles against what the ones before it left: no word about accounts or links. */
  ghost predicate EachSettles(s: Scene, owner: Pubkey, own: ListId, price: u64, bps: nat, matches: seq<SnapStep>)
    decreases |matches|
  {
    matches != [] ==>
      && StepSettles(s, owner, own, price, bps, matches[0])
      && EachSettles(AfterMatch(s, owner, own, price, bps, matches[0]), owner, own, price, bps, matches[1..])
  }

  ghost function AfterMatches(s: Scene, owner: Pubkey, own: ListId, price: u64, bps: nat, matches: seq<SnapStep>): Scene
    decreases |matches|
  {
    if matches == [] then s
    else AfterMatches(AfterMatch(s, owner, own, price, bps, matches[0]), owner, own, price, bps, matches[1..])
  }

  /** The state after the first matches, and that the rest decides what is still open. */
  ghost predicate Underway(start: Scene, now: Scene, owner: Pubkey, own: ListId, price: u64, bps: nat, matches: seq<SnapStep>, i: nat) {
    && i <= |matches|
    && AfterMatches(start, owner, own, price, bps, matches) == AfterMatches(now, owner, own, price, bps, matches[i..])
    && EachSettles(start, owner, own, price, bps, matches) == EachSettles(now, owner, own, price, bps, matches[i..])
  }

  lemma UnderwayStep(start: Scene, now: Scene, owner: Pubkey, own: ListId, price: u64, bps: nat, matches: seq<SnapStep>, i: nat)
    requires Underway(start, now, owner, own, price, bps, matches, i) && i < |matches|
    ensures StepSettles(now, owner, own, price, bps, matches[i]) ==>
      Underway(start, AfterMatch(now, owner, own, price, bps, matches[i]), owner, own, price, bps, matches, i + 1)
    ensures !StepSettles(now, owner, own, price, bps, matches[i]) ==> !EachSettles(start, owner, own, price, bps, matches)
  {
    hide StepSettles, AfterMatch;
    assert matches[i..][0] == matches[i] && matches[i..][1..] == matches[i + 1..];
  }

  /** The next planned match names exactly what is demanded, so it is accepted exactly when it settles. */
  lemma NextMatchAccepted(h0: Heap, now: Scene, owner: Pubkey, own: ListId, price: u64, bps: nat, m: SnapStep, t: Taken, before: nat)
    requires WellFormed(now.heap, now.view) && OtherSide(own) in now.view.prices && now.heap.root.key == h0.root.key && before <= U64_MAX
    requires SameStep(h0, OtherSide(own), m, t, before)
    requires var rest := Flat(now.heap, now.view, OtherSide(own)); rest != [] && t == Taken(rest[0], TakeFrom(rest, before))
    ensures MatchAccepted(now.heap, now.view, now.funds, owner, own.outcome, own.side, price, before, bps, m.maker, m.level,
                          Hints(None, m.next, None, m.worse, m.recipient))
      == StepSettles(now, owner, own, price, bps, m)
  {
    hide WellFormed, MatchAccepted, Settles, RouteOf, Flat;
    FlatEmpty(now.heap, now.view, OtherSide(own));
    PlannedRouteIsDemanded(now.heap, now.view, now.funds, owner, own.outcome, own.side, price, before, bps);
  }

  /** The limit buys at least one atom of what is left, and the fill is worth at least one at the maker's price. */
  predicate Valued(decimals: nat, price: u64, m: SnapStep) {
    Notional(decimals, price, m.before) > 0 && Notional(decimals, m.price, m.fill) > 0
  }

  lemma SettledHasValue(h0: Heap, now: Scene, owner: Pubkey, own: ListId, price: u64, bps: nat, m: SnapStep, t: Taken, before: nat)
    requires WellFormed(now.heap, now.view) && OtherSide(own) in now.view.prices && now.heap.root.key == h0.root.key && before <= U64_MAX
    requires SameStep(h0, OtherSide(own), m, t, before)
    requires var rest := Flat(now.heap, now.view, OtherSide(own)); rest != [] && t == Taken(rest[0], TakeFrom(rest, before))
    requires StepSettles(now, owner, own, price, bps, m)
    ensures Valued(now.heap.root.decimals, price, m)
  {
    hide WellFormed, Flat, Notional, MatchPlan, MatchedFunds, TakerFee, OnGrid, PricesCross, RouteOf;
    var h, v, l := now.heap, now.view, OtherSide(own);
    FlatEmpty(h, v, l);
    var lk, rk := HeadFacts(h, v, l);
    HeadRecord(h, v, l, rk, lk) by { assert IsHead(h, v, l, rk, lk); }
  }

  /** Without base decimals every planned match has value. */
  lemma WholeUnitsHaveValue(price: u64, m: SnapStep)
    requires price > 0 && m.price > 0 && m.before > 0 && m.fill > 0
    ensures Valued(0, price, m)
  {
    NotionalWhole(price, m.before);
    NotionalWhole(m.price, m.fill);
  }

  /**
   * The match instructions of a plan, in order; the first refusal stops the transaction. All of them are accepted
   * exactly when each one settles.
   */
  method ExecuteMatches(ex: Exchange, owner: Pubkey, own: ListId, price: u64, bps: nat, matches: seq<SnapStep>, quantity: nat, cap: nat)
    returns (ok: bool)
    requires ex.Valid() && OtherSide(own) in ex.view.prices && own in ex.view.prices && quantity <= U64_MAX
    requires SameSteps(ex.H(), OtherSide(own), matches, Fills(own.side, price, Flat(ex.H(), ex.view, OtherSide(own)), quantity, cap), quantity)
    modifies ex
    ensures ex.Valid() && ex.elsewhere == old(ex.elsewhere)
    ensures ok <==> old(EachSettles(Scene(ex.H(), ex.view, ex.funds), owner, own, price, bps, matches))
    ensures ok ==> Scene(ex.H(), ex.view, ex.funds) == old(AfterMatches(Scene(ex.H(), ex.view, ex.funds), owner, own, price, bps, matches))
    ensures ok ==> forall m <- matches :: Valued(old(ex.root.decimals), price, m)
    ensures ok ==> OwnSideKept(old(ex.H()), old(ex.view), ex.H(), ex.view, own)
    ensures ok ==> OtherSide(own) in ex.view.prices
                   && Flat(ex.H(), ex.view, OtherSide(own)) == Rest(own.side, price, old(Flat(ex.H(), ex.view, OtherSide(own))), quantity, cap)
  {
    hide Consistent, WellFormed, Fills, Rest, Leftover, Flat, MatchAccepted, MatchPlan, MatchedHeap, MatchedView, MatchedFunds, OwnSideKept, Reaches, RouteOf,
      SameSteps, PricesCross, Settles, StepSettles, EachSettles, AfterMatches, Underway, Valued;
    ghost var l, makers := OtherSide(own), Flat(ex.H(), ex.view, OtherSide(own));
    ghost var h0, v0, start := ex.H(), ex.view, Scene(ex.H(), ex.view, ex.funds);
    ghost var fills := Fills(own.side, price, makers, quantity, cap);
    ghost var remaining: nat := quantity;
    ReachesStart(own.side, price, makers, quantity, cap);
    OwnSideStarts(h0, v0, own);
    StepsLength(h0, l, matches, fills, quantity);
    UnderwayStarts(start, owner, own, price, bps, matches);
    for i := 0 to |matches|
      invariant ex.Valid() && ex.elsewhere == old(ex.elsewhere)
      invariant l in ex.view.prices
      invariant Reaches(own.side, price, makers, quantity, cap, fills[..i], Flat(ex.H(), ex.view, l), remaining)
      invariant OwnSideKept(h0, v0, ex.H(), ex.view, own)
      invariant Underway(start, Scene(ex.H(), ex.view, ex.funds), owner, own, price, bps, matches, i)
      invariant forall j :: 0 <= j < i ==> Valued(h0.root.decimals, price, matches[j])
    {
      ghost var h, v, funds := ex.H(), ex.view, ex.funds;
      ghost var now := Scene(h, v, funds);
      StepAt(h0, l, matches, fills, quantity, i);
      StepRemaining(own.side, price, makers, quantity, cap, fills[..i], Flat(h, v, l), remaining);
      NextFill(own.side, price, makers, quantity, cap, i, Flat(h, v, l), remaining);
      KeptOwn(h0, v0, h, v, own);
      ConsistentIsWellFormed(h, v, funds, ex.elsewhere);
      var m := matches[i];
      NextMatchAccepted(h0, now, owner, own, price, bps, m, fills[i], remaining);
      UnderwayStep(start, now, owner, own, price, bps, matches, i);
      var done := ex.MatchOrder(true, owner, own.outcome, own.side, price, m.before, bps, m.maker, m.level, Hints(None, m.next, None, m.worse, m.recipient));
      if !done { return false; }
      SettledHasValue(h0, now, owner, own, price, bps, m, fills[i], remaining);
      MatchIsOneFill(h, v, funds, ex.elsewhere, owner, own.outcome, own.side, price, m.before, bps, m.maker, m.level,
                     Hints(None, m.next, None, m.worse, m.recipient));
      AcceptedFacts(h, v, funds, ex.elsewhere, owner, own, price, m.before, bps, m.maker, m.level, Hints(None, m.next, None, m.worse, m.recipient));
      OwnSideChain(h0, v0, h, v, ex.H(), ex.view, own);
      assert Scene(ex.H(), ex.view, ex.funds) == AfterMatch(now, owner, own, price, bps, m);
      remaining := remaining - TakeFrom(Flat(h, v, l), remaining);
    }
    assert fills[..|matches|] == fills;
    UnderwayEnds(start, Scene(ex.H(), ex.view, ex.funds), owner, own, price, bps, matches);
    WalkIsOver(own.side, price, makers, quantity, cap, Flat(ex.H(), ex.view, l), remaining);
    ok := true;
  }

  lemma UnderwayStarts(start: Scene, owner: Pubkey, own: ListId, price: u64, bps: nat, matches: seq<SnapStep>)
    ensures Underway(start, start, owner, own, price, bps, matches, 0)
  {
    assert matches[0..] == matches;
  }

  lemma UnderwayEnds(start: Scene, now: Scene, owner: Pubkey, own: ListId, price: u64, bps: nat, matches: seq<SnapStep>)
    requires Underway(start, now, owner, own, price, bps, matches, |matches|)
    ensures EachSettles(start, owner, own, price, bps, matches) && now == AfterMatches(start, owner, own, price, bps, matches)
  {
  }

  lemma OwnSideStarts(h: Heap, v: View, own: ListId)
    requires own in v.prices
    ensures OwnSideKept(h, v, h, v, own)
  {
  }

  lemma StepAt(h: Heap, l: ListId, steps: seq<SnapStep>, fills: seq<Taken>, quantity: nat, i: nat)
    requires SameSteps(h, l, steps, fills, quantity) && i < |steps|
    ensures |fills| == |steps| && steps[i].before == quantity - Total(fills[..i]) && SameStep(h, l, steps[i], fills[i], quantity - Total(fills[..i]))
  {
  }

  lemma StepRemaining(side: Side, limit: nat, makers: seq<Maker>, quantity: nat, cap: nat, done: seq<Taken>, rest: seq<Maker>, remaining: nat)
    requires Reaches(side, limit, makers, quantity, cap, done, rest, remaining)
    ensures remaining == quantity - Total(done) && |done| <= cap
  {
  }

  /** If fills remain, the walk can take; the head it takes is the next fill. */
  lemma NextFill(side: Side, limit: nat, makers: seq<Maker>, quantity: nat, cap: nat, i: nat, rest: seq<Maker>, remaining: nat)
    requires var fills := Fills(side, limit, makers, quantity, cap);
      i < |fills| && Reaches(side, limit, makers, quantity, cap, fills[..i], rest, remaining)
    ensures var fills := Fills(side, limit, makers, quantity, cap);
      && rest != [] && remaining > 0 && fills[i] == Taken(rest[0], TakeFrom(rest, remaining))
      && Reaches(side, limit, makers, quantity, cap, fills[..i + 1], Advance(rest, TakeFrom(rest, remaining)), remaining - TakeFrom(rest, remaining))
  {
    hide Fills, Leftover, Rest, Advance, PricesCross;
    var fills := Fills(side, limit, makers, quantity, cap);
    if !CanTake(side, limit, rest, remaining, cap - i) {
      ReachesStop(side, limit, makers, quantity, cap, fills[..i], rest, remaining);
      assert false;
    }
    ReachesStep(side, limit, makers, quantity, cap, fills[..i], rest, remaining);
    assert fills[..i + 1] == fills[..i] + [fills[i]];
  }

  lemma WalkIsOver(side: Side, limit: nat, makers: seq<Maker>, quantity: nat, cap: nat, rest: seq<Maker>, remaining: nat)
    requires Reaches(side, limit, makers, quantity, cap, Fills(side, limit, makers, quantity, cap), rest, remaining)
    ensures rest == Rest(side, limit, makers, quantity, cap) && remaining == Leftover(side, limit, makers, quantity, cap)
  {
    var fills := Fills(side, limit, makers, quantity, cap);
    hide Fills, Leftover, Rest, PricesCross;
    if CanTake(side, limit, rest, remaining, cap - |fills|) {
      ReachesStep(side, limit, makers, quantity, cap, fills, rest, remaining);
      assert false;
    }
    ReachesStop(side, limit, makers, quantity, cap, fills, rest, remaining);
  }

  // ------------------------------------------------------------------ resting the remainder

  /** If the first maker left does not cross, no level does, and the placement check passes. */
  lemma NothingCrosses(h: Heap, v: View, own: ListId, price: u64)
    requires WellFormed(h, v) && own in v.prices && OtherSide(own) in v.prices
    requires var rest := Flat(h, v, OtherSide(own)); rest == [] || !PricesCross(own.side, price, rest[0].price)
    ensures Legal(h.root.kind, own) && !WouldCross(h.root, own, price)
    ensures forall p <- v.prices[OtherSide(own)] :: !PricesCross(own.side, price, p)
  {
    var l := OtherSide(own);
    ListInView(h, v, own);
    hide WellFormed, Flat;
    FlatEmpty(h, v, l);
    RankedPrices(h, v, l);
    SlotInjective(h.root.kind, own, l);
    if v.prices[l] != [] {
      var lk, rk := HeadFacts(h, v, l);
      SnapshotPlan.QueuedMaker(h, v, lk, 0);
    }
  }

  /** Everything about resting an order except its neighbours and whether it crosses. */
  ghost predicate RestingNeeds(h: Heap, v: View, funds: Funds, owner: Pubkey, own: ListId, price: u64, quantity: u64, id: u64) {
    && Cash(owner) in funds && Claim(owner, own.outcome) in funds
    && OrderTerms(h.root, own, price, quantity).Some?
    && 0 < id == h.root.nextId < U64_MAX && h.root.open < U64_MAX
    && PlacedFunds(h.root, funds, owner, own, price, quantity).Some?
    && var lk := LevelKey(h.root.key, own, price);
    lk in v.queue ==>
      && lk in h.levels && h.levels[lk].last.Some? && h.levels[lk].last.value in h.orders && h.orders[h.levels[lk].last.value].locked > 0
      && h.levels[lk].count < U64_MAX && h.levels[lk].total + quantity <= U64_MAX
  }

  /**
   * After the planned fills the planned placement names exactly the neighbours the program demands and never crosses:
   * it can only fail for funds, counters or the terms themselves.
   */
  lemma PlannedPlacementIsDemanded(h0: Heap, v0: View, h: Heap, v: View, funds: Funds, owner: Pubkey, own: ListId, price: u64,
                                   quantity: nat, cap: nat, r: Option<TradePlan>)
    requires WellFormed(h, v) && own in v0.prices && OtherSide(own) in v0.prices && OtherSide(own) in v.prices
    requires TradeAgrees(h0, v0, own, owner, price, quantity, cap, r) && r.Some? && r.value.place.Some? && r.value.place.value.quantity <= U64_MAX
    requires OwnSideKept(h0, v0, h, v, own)
    requires Flat(h, v, OtherSide(own)) == Rest(own.side, price, Flat(h0, v0, OtherSide(own)), quantity, cap)
    ensures Legal(h.root.kind, own)
    ensures var place := r.value.place.value;
      PlaceAccepted(h, v, funds, owner, own, price, place.quantity, place.id, place.hints)
      == RestingNeeds(h, v, funds, owner, own, price, place.quantity, place.id)
    ensures forall p <- v.prices[OtherSide(own)] :: !PricesCross(own.side, price, p)
  {
    hide WellFormed, Flat, Fills, Leftover, Rest, OrderTerms, PlacedFunds, WouldCross, PricesCross, SameSteps, NoSelf, Notional, GapOf;
    NothingCrosses(h, v, own, price);
    assert OwnLevelKept(h0, v0, h, v, LevelKey(h0.root.key, own, price));
    LevelExistsInQueue(h, v, LevelKey(h0.root.key, own, price));
  }

  /** What the whole transaction of a plan needs: every match settles, and the remainder may rest afterwards. */
  ghost predicate TradeSettles(s: Scene, owner: Pubkey, own: ListId, price: u64, bps: nat, plan: TradePlan) {
    && EachSettles(s, owner, own, price, bps, plan.matches)
    && (plan.place.Some? ==>
          var end, place := AfterMatches(s, owner, own, price, bps, plan.matches), plan.place.value;
          place.quantity <= U64_MAX && RestingNeeds(end.heap, end.view, end.funds, owner, own, price, place.quantity, place.id))
  }

  /**
   * The whole transaction of `buildSharedTrade`: matches, then the remainder; any refusal undoes everything. It
   * succeeds exactly when every planned match settles and the remainder may rest.
   */
  method ExecuteTrade(ex: Exchange, owner: Pubkey, own: ListId, price: u64, bps: nat, plan: TradePlan, quantity: u64, cap: nat)
    returns (ok: bool, ghost mid: Scene)
    requires ex.Valid() && OtherSide(own) in ex.view.prices && own in ex.view.prices
    requires TradeAgrees(ex.H(), ex.view, own, owner, price, quantity, cap, Some(plan))
    modifies ex
    ensures ex.Valid() && ex.elsewhere == old(ex.elsewhere)
    ensures ok <==> old(TradeSettles(Scene(ex.H(), ex.view, ex.funds), owner, own, price, bps, plan))
    ensures ok ==> forall m <- plan.matches :: Valued(old(ex.root.decimals), price, m)
    ensures !ok ==> ex.H() == old(ex.H()) && ex.funds == old(ex.funds) && ex.view == old(ex.view)
    ensures ok ==> mid == old(AfterMatches(Scene(ex.H(), ex.view, ex.funds), owner, own, price, bps, plan.matches))
    ensures ok ==> OtherSide(own) in mid.view.prices && own in mid.view.prices
                   && Flat(mid.heap, mid.view, OtherSide(own)) == Rest(own.side, price, old(Flat(ex.H(), ex.view, OtherSide(own))), quantity, cap)
    ensures ok && plan.place.None? ==> Scene(ex.H(), ex.view, ex.funds) == mid
    ensures ok && plan.place.Some? ==>
      && ex.view == Placed(mid.view, LevelKey(mid.heap.root.key, own, price), plan.place.value.id)
      && Some(ex.funds) == PlacedFunds(mid.heap.root, mid.funds, owner, own, price, plan.place.value.quantity)
      && forall p <- mid.view.prices[OtherSide(own)] :: !PricesCross(own.side, price, p)
  {
    hide Consistent, WellFormed, Fills, Rest, Leftover, Flat, PlaceAccepted, Placeable, PlacedHeap, PlacedFunds, OwnSideKept, SameSteps, PricesCross, Notional,
      Placed, EachSettles, AfterMatches, RestingNeeds, Valued;
    var root, orders, levels, funds := ex.root, ex.orders, ex.levels, ex.funds;
    ghost var h0, v0 := ex.H(), ex.view;
    LeftoverBound(own.side, price, Flat(h0, v0, OtherSide(own)), quantity, cap);
    ok := ExecuteMatches(ex, owner, own, price, bps, plan.matches, quantity, cap);
    mid := Scene(ex.H(), ex.view, ex.funds);
    if ok {
      KeptOwn(h0, v0, mid.heap, mid.view, own);
    }
    if ok && plan.place.Some? {
      var place := plan.place.value;
      ConsistentIsWellFormed(mid.heap, mid.view, mid.funds, ex.elsewhere);
      PlannedPlacementIsDemanded(h0, v0, mid.heap, mid.view, mid.funds, owner, own, price, quantity, cap, Some(plan));
      ok := ex.PlaceOrder(true, owner, own, price, place.quantity, place.id, place.hints);
    }
    if !ok {
      ex.root, ex.orders, ex.levels, ex.funds := root, orders, levels, funds;
      ex.view := v0;
    }
  }

  lemma LeftoverBound(side: Side, limit: nat, makers: seq<Maker>, quantity: nat, cap: nat)
    ensures Leftover(side, limit, makers, quantity, cap) <= quantity
  {
    FillsPlusLeftover(side, limit, makers, quantity, cap);
  }

  lemma KeptOwn(h: Heap, v: View, h': Heap, v': View, own: ListId)
    requires OwnSideKept(h, v, h', v', own)
    ensures own in v'.prices && h'.root.key == h.root.key && h'.root.decimals == h.root.decimals
  {
  }
}
