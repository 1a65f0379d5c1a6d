/**
 * Two asks of 2 at price 5, with one base decimal: the smallest book on which `buildSharedTrade` reports a maker limit
 * for a filled order, and plans a match that the program refuses for having no value.
 */
module TradeCorners {
  import opened Base
  import opened Settlement
  import opened BookHeap
  import opened Removal
  import opened Insertion
  import opened Ledger
  import opened Instructions
  import opened Walk
  import opened SnapshotPlan
  import opened SharedTrade
  import opened Execution

  const BOOK: Pubkey := 7
  const BIDS: ListId := ListId(Spot, Bid)
  const ASKS: ListId := ListId(Spot, Ask)
  const LEVEL: Key := LevelKey(BOOK, ASKS, 5)
  const FIRST: Key := OrderKey(BOOK, 1)
  const SECOND: Key := OrderKey(BOOK, 2)

  function TwoAsks(): Heap {
    Heap(Root(BOOK, SpotKind, 1, 1, 1, 0, [None, Some(5), None, None], 3, 2, 0),
         map[FIRST := Order(BOOK, 1, 1, ASKS, 5, LEVEL, None, Some(SECOND), 2, 2, 2, Status.Open),
             SECOND := Order(BOOK, 2, 2, ASKS, 5, LEVEL, Some(FIRST), None, 2, 2, 2, Status.Open)],
         map[LEVEL := Level(BOOK, ASKS, 5, None, None, Some(FIRST), Some(SECOND), 4, 2, 1)])
  }

  function TwoAsksView(): View {
    View(map[BIDS := [], ASKS := [5]], map[LEVEL := [1, 2]])
  }

  function FirstMaker(): Maker {
    Maker(FIRST, 1, 5, 2, Some(SECOND), None, 1)
  }

  function SecondMaker(): Maker {
    Maker(SECOND, 2, 5, 2, None, None, 1)
  }

  lemma TwoAsksWellFormed()
    ensures WellFormed(TwoAsks(), TwoAsksView())
  {
    TwoAsksQueue();
    TwoAsksLadders();
    TwoAsksCounted();
    hide Queue, Ladder, CountOpen;
  }

  lemma TwoAsksQueue()
    ensures Queue(TwoAsks(), LEVEL, [1, 2])
  {
    assert Node(TwoAsks(), LEVEL, [1, 2], 0) && Node(TwoAsks(), LEVEL, [1, 2], 1);
    assert [1, 2][1..] == [2];
  }

  lemma TwoAsksLadders()
    ensures Ladder(TwoAsks(), BIDS, []) && Ladder(TwoAsks(), ASKS, [5])
  {
    assert Rung(TwoAsks(), ASKS, [5], 0);
  }

  lemma TwoAsksCounted()
    ensures CountOpen(TwoAsks().orders, BOOK, 3) == 2
  {
  }

  lemma TwoAsksFlat()
    ensures Flat(TwoAsks(), TwoAsksView(), ASKS) == [FirstMaker(), SecondMaker()]
  {
    assert [1, 2][1..] == [2];
    assert QueueMakers(TwoAsks(), [2]) == [SecondMaker()];
  }

  /** Price 5, quantity 2: the first ask fills it, and the second one still crosses. */
  lemma FilledWalk()
    ensures var makers := [FirstMaker(), SecondMaker()];
      && Fills(Bid, 5, makers, 2, 3) == [Taken(FirstMaker(), 2)]
      && Leftover(Bid, 5, makers, 2, 3) == 0 && Rest(Bid, 5, makers, 2, 3) == [SecondMaker()]
  {
    var makers := [FirstMaker(), SecondMaker()];
    assert Advance(makers, 2) == [SecondMaker()];
  }

  /** Price 5, quantity 3: the second fill is of 1. */
  lemma DustyWalk()
    ensures var makers := [FirstMaker(), SecondMaker()];
      && Fills(Bid, 5, makers, 3, 3) == [Taken(FirstMaker(), 2), Taken(SecondMaker(), 1)]
      && Leftover(Bid, 5, makers, 3, 3) == 0
  {
    var makers := [FirstMaker(), SecondMaker()];
    assert Advance(makers, 2) == [SecondMaker()];
    assert Fills(Bid, 5, [SecondMaker()], 1, 2) == [Taken(SecondMaker(), 1)];
  }

  lemma Values()
    ensures Notional(1, 5, 1) == 0 && Notional(1, 5, 2) == 1 && Notional(1, 5, 3) == 1
  {
    FloorUnique(5, 10, 0);
    FloorUnique(10, 10, 1);
    FloorUnique(15, 10, 1);
  }

  /** Whatever the planner returns for this order, it is filled, returns nothing, and says "maker-limit". */
  lemma FilledTradeReportsMakerLimit(owner: Pubkey, r: Option<TradePlan>)
    requires owner != 1 && owner != 2
    requires TradeAgrees(TwoAsks(), TwoAsksView(), BIDS, owner, 5, 2, 3, r)
    ensures WellFormed(TwoAsks(), TwoAsksView()) && ValidTrade(TwoAsks().root, BIDS, 5, 2)
    ensures r.Some? && r.value.stop == Some(MakerLimit) && r.value.remaining == 0 && r.value.place.None? && r.value.fills == 1
    ensures var makers := Flat(TwoAsks(), TwoAsksView(), ASKS);
      StopReason(Bid, 5, Rest(Bid, 5, makers, 2, 3), Leftover(Bid, 5, makers, 2, 3)) == Stop.Filled
  {
    TwoAsksWellFormed();
    TwoAsksFlat();
    FilledWalk();
    Values();
    hide WellFormed, Flat, Fills, Leftover, Rest, SameSteps, Notional;
    assert OtherSide(BIDS) == ASKS;
  }

  /**
   * The planner accepts this order and plans two matches; the second is worth nothing, so the program refuses it and
   * with it the whole transaction, whatever funds anyone has.
   */
  lemma DustyMatchIsRefused(owner: Pubkey, funds: Funds, bps: nat, r: Option<TradePlan>)
    requires owner != 1 && owner != 2
    requires TradeAgrees(TwoAsks(), TwoAsksView(), BIDS, owner, 5, 3, 3, r)
    ensures WellFormed(TwoAsks(), TwoAsksView()) && ValidTrade(TwoAsks().root, BIDS, 5, 3)
    ensures r.Some? && |r.value.matches| == 2 && r.value.stop == Some(MakerLimit) && r.value.remaining == 0
    ensures !TradeSettles(Scene(TwoAsks(), TwoAsksView(), funds), owner, BIDS, 5, bps, r.value)
  {
    TwoAsksWellFormed();
    TwoAsksFlat();
    DustyWalk();
    Values();
    hide WellFormed, Flat, Fills, Leftover, Notional, Settles, EachSettles;
    assert OtherSide(BIDS) == ASKS;
    var m, s := r.value.matches, Scene(TwoAsks(), TwoAsksView(), funds);
    StepAt(TwoAsks(), ASKS, m, [Taken(FirstMaker(), 2), Taken(SecondMaker(), 1)], 3, 1);
    SecondStepFails(s, owner, bps, m);
  }

  lemma SecondStepFails(s: Scene, owner: Pubkey, bps: nat, m: seq<SnapStep>)
    requires |m| == 2 && m[1].before == 1 && s.heap.root.decimals == 1
    ensures !EachSettles(s, owner, BIDS, 5, bps, m)
  {
    Values();
    var next := AfterMatch(s, owner, BIDS, 5, bps, m[0]);
    assert next.heap.root.decimals == 1 by { hide Notional, MatchPlan, TakerFee, Detached; }
    assert m[1..][0] == m[1];
    assert OrderTerms(next.heap.root, BIDS, 5, 1).None? by { hide OnGrid; }
  }

  /** The first of those two matches alone would have settled. */
  lemma FirstMatchAloneSettles(owner: Pubkey, funds: Funds, m: SnapStep)
    requires owner != 1 && owner != 2 && m.maker == FIRST && m.before == 3
    requires Cash(owner) in funds && Claim(owner, Spot) in funds && Cash(1) in funds && Claim(1, Spot) in funds
    requires funds[Cash(owner)].free >= 1 && funds[Claim(owner, Spot)].free + 2 <= U64_MAX
    requires funds[Cash(1)].free + 1 <= U64_MAX && funds[Claim(1, Spot)].locked >= 2
    ensures StepSettles(Scene(TwoAsks(), TwoAsksView(), funds), owner, BIDS, 5, 0, m)
  {
    Values();
    hide Notional;
    var h := TwoAsks();
    assert MatchPlan(h, Bid, 5, 3, FIRST) == Result.Ok(Plan(Fill(2, 1, 5), 2, 0, true, false));
  }
}
