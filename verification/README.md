# Tidebook, modelled and proved in Dafny

Tidebook is an on-chain limit order book: price levels in a sorted doubly linked list, a FIFO doubly linked queue of
orders under each level, and locked balances behind every resting order. Clients plan trades against a snapshot, and an
indexer follows the program's transactions. This project models those parts and proves what they promise.

`dafny verify dfyconfig.toml` checks everything.

## How the model is built

- **Accounts.** `BookHeap.Heap` is the set of program accounts: one book root, orders and levels in maps keyed by
  `Key`. A program-derived address is an injective constructor of its seeds, a closed account is a key removed from the
  map. Quantities are `u64`, with every checked operation of the program written out.
- **The book a reader sees.** `BookHeap.View` holds sorted prices per list and a queue of order ids per level.
  `WellFormed(h, v)` says the accounts represent exactly that view: reciprocal links, strict order, counts, totals and
  the open-order counter. `Abstraction.ViewIsUnique` shows that the view is determined by the accounts.
- **The exchange.** `Exchange.Exchange` is a class whose methods rewrite the account maps in place, as the handlers do.
  Each one accepts exactly a stated condition, makes exactly a stated change to the view and to the funds, and otherwise
  changes nothing. `Ledger.Consistent` adds that every locked bucket is the sum of its owner's open locks and that no
  bid reaches an ask. `elsewhere` is what the same wallets have locked in other books. `Promises` says what each
  instruction accepts, pays and writes, in prices, quantities, and free and locked amounts only.
- **The planners.** `Walk` reads a side as one flat price-time sequence and fills it from the front. The overlay
  simulation, the snapshot traversal and the filter-and-sort planner are methods with the source's loops; each is
  proved to compute that walk, for any cap. `Execution` runs a planned transaction on the exchange.
- **Around the book.** `CompleteSets` wraps a prediction market around an exchange, and `Lifecycle` is its published
  clock from draft to verdict. `Paging` and `Checkpoints` are the indexer's pages and durable progress, `LogFrames` its
  log attribution, `RpcTransport` the browser's request scheduler, `Amounts` decimal text.

Each `ghost` parameter or field names the abstract state a method is proved against; none influences a result.

## What the proofs found

- **A bid can lose its whole lock and get stuck.** `order()` demands a positive lock, while a partial fill pays the
  floor of its notional out of the bid's lock. Price 5 at one base decimal, quantity 3: a fill of 2 pays the whole lock
  of 1 and leaves quantity 1 with lock 0 (`Settlement.ZeroLockRemainderExists`). The lock stays positive exactly when the
  fill is worth less than the lock (`Settlement.PartialFillKeepsLockPositive`). A zero-lock order, or a neighbour of one,
  cannot be cancelled, matched in full or appended to, so positive locks appear as conditions in `CancelAccepted`,
  `MatchAccepted` and `PlaceAccepted`. It can only happen to bids with base decimals whose remainder is worth less than
  one atom (`Abstraction.ZeroLockOnlyOnDustBids`), never on a prediction book (`Abstraction.PredictionOrdersRemovable`).
- **"maker-limit" is also reported for a filled order.** `buildSharedTrade` computes `blocked` without looking at what
  is left, so a completely filled request reports it whenever crossing liquidity remains, where the other two planners
  say "filled" (`SharedTrade.MakerLimitExactly`, `TradeCorners.FilledTradeReportsMakerLimit`).
- **A planned trade can be refused for a match worth nothing.** `buildSharedTrade` keeps worthless remainders from
  resting, but plans worthless matches. With one base decimal and two asks of 2 at price 5, a bid for 3 plans a second
  match of 1, whose notional is 0; the program refuses it and rolls back the valid first fill
  (`TradeCorners.DustyMatchIsRefused`). A transaction succeeds exactly when every match settles in turn and the remainder
  may rest (`Execution.ExecuteTrade`), and every match that settles has value (`Execution.SettledHasValue`).
- **Log text can hide events, and forge them.** A logged text containing ` invoke [` opens a frame under a name that is no
  program, and the real frames beneath it get stuck. Until a text such as `x success` closes that name, the frame's
  events are lost. When it closes, a stuck frame is innermost again although its call is over: a caller that logs the
  closing text and writes data is then read as the stuck program (`LogFrames.ClosingTextForgesEvents`). Attribution is
  exact if and only if no data line is lost or forged, both given by the names still open there
  (`LogFrames.AttributionExactly`); without imitations it is always exact (`LogFrames.PlainLogsAreExact`), and without
  closing texts nothing is forged (`LogFrames.SilentTextsNeverForge`).
- **Live recovery can get stuck.** It catches up exactly when the gap fits its pages, no row conflicts, and every position
  provably follows the one before (`Checkpoints.Store.RecoverLiveGap`). A checkpoint saved without an execution index is
  final for its slot: a later success in that slot is refused whatever the server shows afterwards
  (`Checkpoints.IndexlessCheckpointSticks`). A row stored without its index refuses every retry that shows one
  (`Checkpoints.LateIndexIsRefused`). Nothing is skipped in either case.

## Model

| member | source | states |
|---|---|---|
| BookHeap.SlotLayout | programs/tidebook/src/state/shared.rs:62-73 | spot lists belong to spot books and the others to prediction books; asks have the odd heads, NO the upper pair |
| BookHeap.SlotInjective | programs/tidebook/src/state/shared.rs:62-73 | two legal lists share a head only if they are the same list, and the opposite side is the paired head |
| Abstraction.ViewIsUnique | programs/tidebook/src/state/shared.rs:75-114 | the linked accounts determine one sorted book: two readings of the same accounts are equal |
| Removal.ChecksAcceptExactlyClientHints | programs/tidebook/src/shared_trading.rs:373-503 | on a well-formed book the removal checks pass for an open order with positive locks and exactly the neighbours, levels and rent recipient the client reads, in every position, and for nothing else |
| Removal.RemovalIsDeletion | programs/tidebook/src/shared_trading.rs:363-533 | repairing the two linked lists and the counters is deleting that order from the abstract book; its level disappears exactly when it was the last order |
| Updates.RetireKeepsWellFormed | programs/tidebook/src/instructions/shared_orders.rs:310-355 | a removed order whose record is closed leaves a well-formed book without it |
| Updates.PartialFillKeepsWellFormed | programs/tidebook/src/instructions/shared_match.rs:219-241 | shrinking an order and its level total in place keeps the book well formed with the same view |
| Insertion.GapIsUnique | app/lib/prediction.ts:466-508 | a place between adjacent prices on either side of a new price is the only one, and the price is new |
| Insertion.GapExists | app/lib/prediction.ts:466-508 | every new price has such a place |
| Insertion.AppendAcceptsExactlyTail | programs/tidebook/src/instructions/shared_orders.rs:88-148 | behind an existing price the placement checks accept exactly the queue's tail |
| Insertion.InsertAcceptsExactlyGap | programs/tidebook/src/instructions/shared_orders.rs:149-205 | for a new price they accept exactly the two levels around its gap |
| Insertion.AppendKeepsWellFormed | programs/tidebook/src/instructions/shared_orders.rs:242-271 | appending puts the new order last in its queue and keeps the book well formed |
| Insertion.InsertKeepsWellFormed | programs/tidebook/src/instructions/shared_orders.rs:218-271 | splicing a level at the gap keeps the price list strictly sorted and the book well formed |
| Insertion.TermsBackOrder | programs/tidebook/src/shared_trading.rs:124-158 | accepted terms lock a positive amount that backs the whole order at its price |
| Settlement.SettlementSucceedsExactly | programs/tidebook/src/matching.rs:117-200 | against a backed maker `InvalidMakerCollateral` never occurs; settlement succeeds exactly for crossing prices from opposite sides and a fill worth one atom to u64 |
| Settlement.SettlementKeepsBacking | programs/tidebook/src/matching.rs:117-200 | the debit is payment plus refund, stays within the lock, and leaves the remainder backed; only a final bid fill refunds |
| Settlement.FillBidStep | programs/tidebook/src/matching.rs:136-200 | one more fill keeps lock, payments and refund accounted for and strictly shrinks the bid |
| Settlement.BidSurvivesAnyFills | programs/tidebook/src/matching.rs:136-200 | whatever takers arrive, the lock covers the remainder, and lock, payments and refund add up to the original |
| Settlement.FreshBidSettlesExactly | programs/tidebook/src/matching.rs:136-200 | after the final fill payment plus refund is the original lock, and the refund is at most the number of fills minus one |
| Settlement.PartialFillKeepsLockPositive | programs/tidebook/src/shared_trading.rs:312-351 | a partial fill leaves a positive lock exactly when it is worth less than the lock, always with zero decimals |
| Settlement.ZeroLockRemainderExists | programs/tidebook/src/shared_trading.rs:312-351 | price 5, one decimal, quantity 3: a fill of 2 leaves quantity 1 with lock 0 that nothing can fill |
| Abstraction.ZeroLockOnlyOnDustBids | programs/tidebook/src/shared_trading.rs:312-351 | an open order without a lock is a bid, with base decimals, whose remainder is worth less than an atom |
| Abstraction.PredictionOrdersRemovable | programs/tidebook/src/shared_trading.rs:312-503 | every open order of a prediction book passes removal with the client's hints |
| Settlement.NotionalSplit | programs/tidebook/src/matching.rs:61-115 | splitting a quantity loses at most one atom of notional and never gains |
| Settlement.FeeIsCeiling | programs/tidebook/src/fees.rs:41-56 | the fee is the least integer at or above the exact rate, at most the notional, and exists exactly for legal rates |
| Settlement.SplitFeeBounds | programs/tidebook/src/fees.rs:41-56 | summed fees stay between the exact rate on the sum and one atom per part above it |
| Settlement.SplittingNeverAvoidsFees | programs/tidebook/src/fees.rs:41-56 | splitting a notional into n parts never lowers the fee and adds at most n - 1 atoms |
| Ledger.NoBidReachesAnAsk | programs/tidebook/src/prediction_orders.rs:49-61 | in a consistent book every bid price is below every ask price of the same outcome |
| Ledger.OpenOrderIsBacked | app/lib/prediction-matching-plan.ts:261-264 | an open order's lock is within its owner's locked bucket, so "Maker position does not back its order" never fires |
| Ledger.SettlementPays | programs/tidebook/src/instructions/shared_match.rs:161-218 | a settlement is refused exactly where someone cannot pay or receive; otherwise every free and locked amount of both traders moves by exactly price, fee, contracts, lock and refund, and no other bucket changes |
| Ledger.LockingMoves | programs/tidebook/src/instructions/shared_orders.rs:206-217 | placing moves an amount from free to locked, and is refused exactly when it is not free or does not fit |
| Ledger.UnlockingMoves | programs/tidebook/src/instructions/shared_orders.rs:320-349 | cancelling moves it back, and is refused exactly when it is not locked or does not fit |
| Ledger.CancelKeepsConsistent | programs/tidebook/src/instructions/shared_orders.rs:310-355 | a cancellation unlocks exactly the order's lock and keeps every invariant |
| Ledger.AppendKeepsConsistent | programs/tidebook/src/instructions/shared_orders.rs:52-272 | a FIFO append keeps book, backing and spread invariants |
| Ledger.InsertKeepsConsistent | programs/tidebook/src/instructions/shared_orders.rs:52-272 | a new level inside the opposing best keeps them too |
| Ledger.SettlementConserves | programs/tidebook/src/instructions/shared_match.rs:107-218 | one fill unlocks only the maker's purse, by the debit; cash plus fee and contracts are conserved, nobody else moves |
| Ledger.FillConservesTotals | programs/tidebook/src/instructions/shared_match.rs:161-218 | over all traders cash plus fee is constant and so is every outcome's contract total |
| Ledger.FullFillKeepsConsistent | programs/tidebook/src/instructions/shared_match.rs:107-251 | a complete fill of a maker keeps every invariant |
| Ledger.PartialFillKeepsConsistent | programs/tidebook/src/instructions/shared_match.rs:107-251 | a partial fill keeps every invariant and the maker's place |
| Instructions.PlaceExact | programs/tidebook/src/instructions/shared_orders.rs:52-215 | the placement checks hold exactly for accepted terms, the next id, a price inside the opposing best, funds, and the one right set of neighbours |
| Instructions.PlaceKeepsConsistent | programs/tidebook/src/instructions/shared_orders.rs:52-272 | every accepted placement keeps every invariant |
| Instructions.HeadExact | programs/tidebook/src/instructions/shared_match.rs:72-92 | the priority checks accept exactly the oldest order of the best opposing level |
| Instructions.MatchExact | programs/tidebook/src/instructions/shared_match.rs:59-251 | the match checks hold exactly for that head, someone else's, with crossing prices, value, fee, funds and the right routing |
| Instructions.MatchKeepsConsistent | programs/tidebook/src/instructions/shared_match.rs:59-251 | every accepted match keeps every invariant |
| Instructions.MatchConserves | programs/tidebook/src/instructions/shared_match.rs:59-251 | cash lost by traders is exactly the accrued fee; contracts only change hands |
| Instructions.CancelExact | programs/tidebook/src/instructions/shared_orders.rs:310-355 | the cancellation checks hold exactly for the owner's open order with the client's hints |
| Promises.TermsExactly | programs/tidebook/src/shared_trading.rs:124-171 | terms are accepted exactly for the right kind of list, a price on the grid, whole lots and a value of one atom to u64, and lock the value of a bid or the quantity of an ask |
| Promises.CrossingExactly | programs/tidebook/src/instructions/shared_orders.rs:74-82 | a placement is refused for its price exactly when it would reach an opposing order |
| Promises.PlaceAcceptedExactly | programs/tidebook/src/instructions/shared_orders.rs:52-217 | a placement is accepted exactly on the listed comparisons of prices, quantities, free and locked amounts and neighbours |
| Promises.PlacementPosts | programs/tidebook/src/instructions/shared_orders.rs:206-272 | it moves exactly the lock and writes exactly the new order; every other order keeps its terms, and a new level remembers who paid its rent |
| Promises.CancelAcceptedExactly | programs/tidebook/src/instructions/shared_orders.rs:310-349 | on a consistent book the owner's open order with positive locks and the client's hints is cancelled if and only if the released lock fits the free balance |
| Promises.CancellationReleases | programs/tidebook/src/instructions/shared_orders.rs:332-355 | the whole lock becomes free and the order is closed without lock or links; nothing else changes |
| Promises.MatchAcceptedExactly | programs/tidebook/src/instructions/shared_match.rs:59-218 | a match is accepted exactly for the oldest order of the best price, someone else's, at or inside the limit, worth something, and payable on both sides |
| Promises.MatchPays | programs/tidebook/src/instructions/shared_match.rs:107-242 | it pays the maker the price and charges the taker price and ceiling fee, or the other way round, and takes exactly the fill out of the maker's order |
| Exchange.Exchange.constructor | programs/tidebook/src/instructions/shared_book.rs:37-66 | an initialized book is empty and consistent |
| Exchange.Exchange.RemoveOrder | programs/tidebook/src/shared_trading.rs:363-533 | in place: changes nothing unless every check holds, and then writes exactly the specified accounts |
| Exchange.Exchange.PlaceOrder | programs/tidebook/src/instructions/shared_orders.rs:52-272 | succeeds exactly when `Promises.PlacePossible`, locks exactly the amount, adds exactly the order at its place, otherwise changes nothing |
| Exchange.Exchange.CancelOrder | programs/tidebook/src/instructions/shared_orders.rs:310-355 | succeeds exactly when `Promises.CancelPossible`, frees exactly the lock, deletes exactly the order, otherwise changes nothing |
| Exchange.Exchange.MatchOrder | programs/tidebook/src/instructions/shared_match.rs:59-251 | succeeds exactly when `Promises.MatchPossible`, pays both traders as `Promises.Matched` says, otherwise changes nothing |
| Exchange.Exchange.ApplyFill | programs/tidebook/src/instructions/shared_match.rs:219-242 | a complete fill removes and closes the maker, a partial one shrinks it, and the fee accrues |
| Exchange.Exchange.HookLevel | programs/tidebook/src/instructions/shared_orders.rs:218-241 | a new level is linked to both neighbours or becomes the head |
| Exchange.Exchange.SpliceOrder | programs/tidebook/src/instructions/shared_orders.rs:218-271 | the account writes of a placement are the specified ones |
| Exchange.Exchange.Execute | programs/tidebook/src/lib.rs:90-126 | carries out the given instruction or refuses it, and keeps every invariant, cash plus fees, and every contract total |
| Exchange.Exchange.Run | programs/tidebook/src/lib.rs:90-126 | over any run each instruction is carried out or refused in turn, on what the ones before left, and every invariant and total is kept |
| Walk.WalkIsPriceTimePriority | app/lib/matching-plan.ts:97-336 | the walk takes makers strictly in price-time order, each completely unless the taker runs out, at most the cap, and conserves quantity |
| Walk.FillsWithinLimit | programs/tidebook/src/matching.rs:54-59 | no fill is at a price above a bid's limit or below an ask's |
| Walk.StopMeans | app/lib/prediction-matching-plan.ts:375-384 | filled, book exhausted, non-crossing and cap each say exactly: nothing left to take, no maker left, the next price beyond the limit, or only the cap |
| Walk.FlatHead | app/lib/prediction.ts:55-110 | the flat sequence starts with the first order of the best level |
| Walk.FlatAfterRetire | app/lib/prediction-matching-plan.ts:305-350 | removing the head drops exactly the first maker |
| Walk.FlatAfterPartial | app/lib/prediction-matching-plan.ts:305-350 | a partial fill shortens exactly the first maker |
| Settlement.ClientFeeIsChainFee | app/lib/prediction.ts:183-281 | the client's ceiling fee is the program's fee and at most the notional |
| PredictionPlan.ReadFindsHead | app/lib/prediction.ts:53-181 | on a well-formed side the read returns the head maker with exactly the accounts its removal repairs, and fails only on an empty side |
| PredictionPlan.QuoteExact | app/lib/prediction.ts:183-281 | against a consistent book the preview fails exactly when the settlement would, apart from the maker's own overflow, and quotes the settlement's amounts |
| PredictionPlan.FillLedger | app/lib/prediction-matching-plan.ts:246-303 | the simulated ledger is the program's settlement |
| PredictionPlan.FillAccounts | app/lib/prediction-matching-plan.ts:304-358 | the simulated accounts are the program's: level promotion, FIFO promotion, counters and head |
| PredictionPlan.StepAdvances | app/lib/prediction-matching-plan.ts:221-373 | after one simulated fill the overlay is again a consistent book, equal to the old one with that fill removed |
| PredictionPlan.SimulateFill | app/lib/prediction-matching-plan.ts:225-373 | one iteration is refused exactly when the specified fill is, and otherwise produces it |
| PredictionPlan.PlanTakesTheWalk | app/lib/prediction-matching-plan.ts:221-384 | the specified plan takes exactly the fills of the walk |
| PredictionPlan.PlanConserves | app/lib/prediction-matching-plan.ts:246-373 | over a whole plan cash plus fees and every contract total are constant, however often a maker appears |
| PredictionPlan.AgreedPays | app/lib/prediction-matching-plan.ts:246-373 | every returned step takes someone else's order within the limit at its own price, and the final ledger moves the taker and each maker by exactly the sums of their steps |
| PredictionPlan.RefusedExactly | app/lib/prediction-matching-plan.ts:221-345 | a plan is refused exactly when one of the walk's fills cannot be paid or received after the ones before it |
| PredictionPlan.RequestTermsExactly | app/lib/prediction-matching-plan.ts:139-220 | the request checks accept exactly the program's terms, except that the value at the limit may not fit u64 |
| PredictionPlan.PlanPredictionMatches | app/lib/prediction-matching-plan.ts:139-385 | for any cap: a plan is returned exactly when the walk meets no own order and every fill is funded; steps, routing, totals, ledger, stop reason and final overlay are the walk's |
| PredictionPlan.PostableExactlyWhenNothingCrosses | app/lib/prediction-matching-plan.ts:85-91 | a remainder may be posted exactly when no level of the opposing side crosses the limit, and then the placement check passes |
| PredictionPlan.ReturnedRemainderNeverCrosses | app/lib/prediction-matching-plan.ts:375-384 | the same for a whole returned plan and its final book |
| SnapshotPlan.PlanBoundedMatches | app/lib/matching-plan.ts:66-337 | on any accounts it terminates; on a well-formed side it refuses exactly a path through an own order and otherwise gives the walk's steps, routing, leftover and stop reason |
| SnapshotPlan.StepsWithinLimit | app/lib/matching-plan.ts:97-336 | no planned step is beyond the limit price |
| SnapshotPlan.CapStopAgrees | app/lib/matching-plan.ts:281-300 | the boundary classification at the cap, made without reading another order, is the walk's stop reason |
| SnapshotPlan.PlannersAgree | app/lib/matching-plan.ts:97-336 | whenever the overlay simulation returns, the traversal returns the same makers, fills, routing, leftover and stop reason |
| SharedTrade.SortRanks | app/lib/shared.ts:254-396 | sorting rows with distinct prices ranks them strictly, best first |
| SharedTrade.SortedHeadIsListHead | app/lib/shared.ts:262-278 | after any simulated fills, filtering and sorting the rows finds exactly the list's head level |
| SharedTrade.TakeHead | app/lib/shared.ts:279-337 | one iteration names the head's accounts and leaves local copies that show the book after the fill |
| SharedTrade.BlockedExactly | app/lib/shared.ts:339-345 | some remaining level crosses exactly when the head does |
| SharedTrade.SortedNeighboursAreGap | app/lib/shared.ts:355-391 | the sorted neighbours of a new price are the list's gap, and an existing level gives its tail |
| SharedTrade.BuildSharedTrade | app/lib/shared.ts:212-397 | refuses exactly a path through an own order; its matches are the walk's, and what is left is posted with the right neighbours, kept back as blocked, or kept back as dust |
| SharedTrade.TradeConservesQuantity | app/lib/shared.ts:254-396 | quantity is the fills plus the posted amount plus the returned remainder |
| SharedTrade.ClientTermsExactly | app/lib/shared.ts:221-246 | the client accepts exactly the terms the program accepts |
| SharedTrade.MakerLimitExactly | app/lib/shared.ts:392-397 | when "maker-limit" is reported, and where that differs from the walk's stop reason |
| TradeCorners.FilledTradeReportsMakerLimit | app/lib/shared.ts:339-397 | two asks of 2 at price 5, a bid for 2: filled, nothing returned, and "maker-limit" reported |
| TradeCorners.DustyMatchIsRefused | app/lib/shared.ts:254-397 | a bid for 3 on the same book plans a second match worth nothing, so the transaction is refused whatever anyone holds |
| TradeCorners.FirstMatchAloneSettles | app/lib/shared.ts:254-397 | while the first of those two matches alone would have settled |
| Execution.MatchIsOneFill | programs/tidebook/src/instructions/shared_match.rs:59-251 | an accepted match is the walk's next fill with exactly its routing, and leaves the advanced sequence |
| Execution.PlannedRouteIsDemanded | app/lib/shared.ts:290-323 | a planned match can only fail for funds, fees, locks or values, never for the accounts it names |
| Execution.PlannedPlacementIsDemanded | app/lib/shared.ts:355-391 | after the planned fills the planned placement names exactly the demanded neighbours and never crosses |
| Execution.NextMatchAccepted | app/lib/shared.ts:279-323 | at every point of a plan the next match is accepted exactly when it settles: its accounts never decide |
| Execution.SettledHasValue | programs/tidebook/src/matching.rs:61-115 | a match that settles buys at least one atom at the limit and is worth at least one at the maker's price |
| Execution.ExecuteMatches | app/lib/shared.ts:254-337 | all planned matches are accepted exactly when each settles against what the ones before left, and then leave exactly the predicted side |
| Execution.ExecuteTrade | app/lib/shared.ts:212-397 | the whole transaction succeeds exactly when every match settles and the remainder may rest, leaving the predicted book; otherwise it changes nothing |
| PredictionCancel.CancellationReadExactly | app/lib/prediction.ts:283-433 | the client's read succeeds for exactly the owner's open orders, and the program accepts exactly what it returns |
| Placement.LocalGapIsGlobal | app/lib/prediction.ts:466-508 | against a well-formed side the accepted neighbour pairs are exactly the insertion gap |
| Placement.ReadPlacementTarget | app/lib/prediction.ts:521-607 | finds the existing level's tail, or the gap exactly when it is reached within the bound, or the empty side |
| Placement.FindPriceLevelNeighbors | app/lib/tidebook.ts:425-512 | terminates on every account map, cyclic or malformed; on a well-formed side returns exactly the gap |
| Placement.ReadDepth | app/lib/prediction-book.ts:25-71 | returns exactly the best levels, best first, and says there are more exactly when some were cut off |
| PredictionResting.LockRestingConserves | programs/tidebook/src/prediction_orders.rs:73-131 | locking moves one bucket from free to locked, conserves it, and backs the order exactly |
| PredictionResting.LockRestingExactly | programs/tidebook/src/prediction_orders.rs:73-131 | a prediction order locks its whole price or its contracts, and is refused exactly when they are not free or do not fit |
| PredictionResting.RestingExactly | programs/tidebook/src/prediction_orders.rs:10-72 | the resting rules hold exactly for an open market, a price on the grid inside the payout and every opposing price, and the next id |
| PredictionResting.FoundPlaceFits | app/lib/prediction.ts:609-690 | the place the search found passes every link check |
| PredictionResting.ClientAgreesWithChain | app/lib/prediction.ts:609-732 | with that place the client accepts exactly what the program accepts, for the same amount |
| PredictionResting.RestingKeepsConsistent | programs/tidebook/src/prediction_orders.rs:10-131 | an accepted prediction order keeps the book well formed, locks backed and bids below asks |
| CompleteSets.ResolutionChangesNothing | programs/tidebook/src/prediction_config.rs:108-111 | with an even payout, publishing YES, NO or Invalid leaves the liability as it was |
| CompleteSets.TotalPayoutIsLiability | app/components/prediction/position-actions.tsx:77-86 | the payouts of all positions together are the liability on the totals |
| CompleteSets.VerdictPays | programs/tidebook/src/instructions/shared_prediction.rs:205-213 | YES pays the YES contracts in full and the NO contracts nothing, NO the other way round, Invalid half to both |
| CompleteSets.ClaimsAreCovered | programs/tidebook/src/instructions/shared_prediction.rs:207-244 | any free claims are within supply, and their payout within the reserve |
| CompleteSets.BackingCheckNeverFires | app/lib/prediction.ts:900-944 | the client's merge check accepts exactly what the program accepts; its backing clause never decides |
| CompleteSets.PredictionMarket.SplitSet | programs/tidebook/src/instructions/prediction_complete_set.rs:46-92 | succeeds exactly on funds, room and lifecycle, moves exactly the owner's cash into pairs and the reserve, and keeps the market solvent |
| CompleteSets.PredictionMarket.MergeSet | programs/tidebook/src/instructions/prediction_complete_set.rs:107-160 | succeeds exactly with the owner's own free pairs, and moves exactly their backing back: no backing condition is needed |
| CompleteSets.PredictionMarket.RedeemClaims | programs/tidebook/src/instructions/shared_prediction.rs:182-244 | succeeds exactly with the owner's own free contracts, whatever was redeemed before; the free cash grows by exactly what the verdict pays and the contracts are burned |
| CompleteSets.PredictionMarket.Advance | programs/tidebook/src/instructions/prediction_resolution.rs:90-228 | accepts exactly the lifecycle moves of `Lifecycle.Take`, moves no funds, and leaves the reserve the exact liability whatever the verdict |
| Lifecycle.TakeKeepsSound | programs/tidebook/src/instructions/prediction_resolution.rs:36-228 | every accepted move keeps: proposals come from the entitled window, verdicts have stood their delay or are the agreed timeout |
| Lifecycle.WindowExactly | programs/tidebook/src/instructions/prediction_resolution.rs:36-62 | the primary may propose from the earliest time until the fallback's, the fallback from then until its deadline |
| Lifecycle.OpeningExactly | programs/tidebook/src/instructions/open_prediction_market.rs:41-54 | a draft opens exactly by its active creator and resolver before the close, and nothing else opens trading |
| Lifecycle.FreezingExactly | programs/tidebook/src/instructions/prediction_resolution.rs:144-181 | trading is frozen by anyone exactly from the close on, and at any time exactly by the active creator |
| Lifecycle.FallbackExactly | programs/tidebook/src/instructions/prediction_resolution.rs:182-199 | the fallback takes over exactly in its own window, from a primary resolver who has not proposed |
| Lifecycle.TimeOutExactly | programs/tidebook/src/instructions/prediction_resolution.rs:213-228 | an unproposed market times out exactly from its deadline on, and is then Invalid |
| Lifecycle.TradesUntilClose | programs/tidebook/src/instructions/prediction_resolution.rs:90-228 | under validated terms an open market trades until its close, whatever anyone does, unless its active creator stops it |
| Lifecycle.TradingNeverResumes | programs/tidebook/src/instructions/prediction_resolution.rs:90-228 | trading that has stopped never starts again |
| Lifecycle.ProposalExactly | programs/tidebook/src/instructions/prediction_resolution.rs:90-136 | a first proposal needs exactly an unproposed market and the entitled resolver in an open window; the two windows never overlap |
| Lifecycle.CorrectionOrFinality | programs/tidebook/src/instructions/prediction_resolution.rs:70-136 | before maturity only the entitled resolver can correct, restarting the delay; from maturity on anyone can finalize and nothing else can happen |
| Lifecycle.EveryVerdictWasReviewable | programs/tidebook/src/instructions/prediction_resolution.rs:36-228 | over every run of a draft, a verdict stood for its whole delay or is the timeout after its deadline |
| Lifecycle.VerdictIsIrrevocable | programs/tidebook/src/instructions/prediction_resolution.rs:90-228 | no run ever changes a published verdict |
| Lifecycle.ProposalsMatureInTime | programs/tidebook/src/prediction_config.rs:68-105 | under validated terms with a deadline every maturity is representable and less than a delay after the deadline |
| Lifecycle.AlwaysResolvable | programs/tidebook/src/instructions/prediction_resolution.rs:165-228 | with a fallback deadline anyone can resolve the market from then on, at the latest a delay after the deadline |
| Lifecycle.PublicResolutionExactly | programs/tidebook/src/instructions/prediction_resolution.rs:165-228 | without a proposal the public can resolve an open market if and only if a fallback deadline was agreed |
| CompleteSets.PredictionMarket.Trade | programs/tidebook/src/instructions/shared_match.rs:59-251 | placing and matching are carried out exactly while the market trades before its close, cancelling always; supplies and reserve stay |
| CompleteSets.PredictionMarket.Run | programs/tidebook/src/lib.rs:404-441 | over any run each action is carried out or refused in turn; supplies are the sums of positions, the reserve is exactly the liability, and collateral in custody is constant |
| CompleteSets.PredictionMarket.ReservePaysEveryClaim | programs/tidebook/src/instructions/shared_prediction.rs:182-244 | after resolution everything still redeemable is exactly the reserve |
| Paging.PageIsSlice | services/indexer/src/rpc.rs:160-206 | a page holds exactly the successes of its slice, oldest first, and its cursor is the slice's oldest entry even if that failed |
| Paging.OlderPageFirst | services/indexer/src/live.rs:84-93 | reversing the chunks puts each older page in front |
| Paging.CollectGapPages | services/indexer/src/live.rs:59-103 | caught up means exactly the successes after the boundary in execution order, from a gap that fits the pages; the cap is reached only by a longer gap and exposes nothing; it fails only on a failed request or a zero limit |
| Checkpoints.UpdateNeverMovesBack | services/indexer/src/storage/live_checkpoint.rs:205-280 | an accepted checkpoint update never moves backwards in the true order, and a provably newer one is accepted |
| Checkpoints.SameTransactionUpdate | services/indexer/src/storage/live_checkpoint.rs:217-241 | for the same transaction an update may only add the missing index; any other difference is a conflict |
| Checkpoints.OtherTransactionUpdate | services/indexer/src/storage/live_checkpoint.rs:242-279 | for another transaction the update is taken exactly when it is provably later, and refused otherwise |
| Checkpoints.AdvancesExactly | services/indexer/src/storage/live_checkpoint.rs:205-280 | a later transaction's checkpoint is refused exactly in the stored slot when one of the two indexes is missing |
| Checkpoints.Store.Persist | services/indexer/src/storage/writer.rs:47-140 | an exact replay changes nothing, a conflicting row is refused, a new row is added |
| Checkpoints.Store.SaveLive | services/indexer/src/storage/live_checkpoint.rs:282-391 | inserts, advances or keeps; anything not provably forward is refused |
| Checkpoints.Store.LatestSource | services/indexer/src/storage/live_checkpoint.rs:160-203 | returns the last source row in slot, known-index and signature order |
| Checkpoints.Store.LoadOrInitialize | services/indexer/src/storage/live_checkpoint.rs:393-423 | existing progress wins; a bootstrapped checkpoint has everything before it processed |
| Checkpoints.Store.RunBackfill | services/indexer/src/backfill.rs:60-154 | whatever fails, the cursor never passes an unprocessed success; when requests and writes succeed it fails exactly on a conflicting row in reach, and completes exactly when the pages are enough |
| Checkpoints.Store.ProcessRecord | services/indexer/src/live.rs:140-150 | the source row first, the checkpoint second; both happen exactly when the row replays and its place is provable |
| Checkpoints.Store.ProcessGap | services/indexer/src/live.rs:120-153 | row before checkpoint, in order; with enough writes the end is reached exactly when no row conflicts and every position provably follows the one before |
| Checkpoints.Store.RecoverLiveGap | services/indexer/src/live.rs:217-226 | caught up means nothing finalized at the first request is unprocessed; when requests and writes succeed this happens exactly for a gap that fits and is recoverable |
| Checkpoints.StuckAtRefuses | services/indexer/src/storage/live_checkpoint.rs:205-280 | behind a checkpoint without index, the next record of its slot is refused whatever the server shows |
| Checkpoints.IndexlessCheckpointSticks | services/indexer/src/live.rs:217-226 | two successes of one slot, the first listed without index: after it, no recovery that sees the second ever catches up |
| Checkpoints.LateIndexIsRefused | services/indexer/src/storage/writer.rs:74-112 | a row stored without its index refuses every retry in which the server shows the index |
| Checkpoints.Store.RunAll | services/indexer/src/main.rs:122-240 | any sequence of runs, each failing or crashing at any write, keeps every checkpoint safe |
| LogFrames.ExtractProgramData | services/indexer/src/events.rs:38-78 | the loop is the stack machine of the proofs |
| LogFrames.LogLineParses | services/indexer/src/events.rs:91-118 | free log text is never data and never names a real program, but can open a frame |
| LogFrames.InvokeLineParses | services/indexer/src/events.rs:91-96 | a printed invocation is read back as its program |
| LogFrames.ExitLineParses | services/indexer/src/events.rs:108-118 | a printed success or failure is read back as its program |
| LogFrames.RunCall | services/indexer/src/events.rs:38-78 | over any printed call, whatever its texts, the machine leaves exactly the call's residue of open names and adds exactly the lines read under the target's name |
| LogFrames.AttributionExactly | services/indexer/src/events.rs:38-118 | for every printed transaction and any logged texts, the result is exactly the program's own data lines with their indexes if and only if no line is lost or forged, each kind given by the names open at that line |
| LogFrames.SilentTextsNeverForge | services/indexer/src/events.rs:91-118 | only a text that reads as the end of a frame can forge: without one, a wrong line is always lost |
| LogFrames.SilentItemsMask | services/indexer/src/events.rs:38-118 | without such texts a name is open exactly when an imitation was logged in the frame or in one of its calls |
| LogFrames.PlainLogsAreExact | services/indexer/src/events.rs:38-118 | in particular whenever no text contains the marker |
| LogFrames.ImitationHidesEvents | services/indexer/src/events.rs:91-96 | one frame, one text, one event: the event is found exactly when the text lacks the marker |
| LogFrames.ClosingTextForgesEvents | services/indexer/src/events.rs:91-118 | for every caller, target and payload: a target that logs an imitation and a caller that logs its end make the caller's data the target's event |
| LogFrames.ClosedImitationIsHarmless | services/indexer/src/events.rs:91-118 | a frame that closes its own imitation is read exactly |
| RpcTransport.ReleaseKeeps | app/lib/rpc-transport.ts:58-69 | a released permit passes to the longest waiter or is freed, and the count stays right |
| RpcTransport.Order | app/lib/rpc-transport.ts:172-190 | every provider exactly once: the configured primary, then the last that worked, then the others in order |
| RpcTransport.JobSends | app/lib/rpc-transport.ts:172-220 | a request goes to a provider its job has not reached before, and a write's is its only one |
| RpcTransport.AppendWrite | app/lib/rpc-transport.ts:180-206 | after a write starts or succeeds no older entry can be served |
| RpcTransport.Transport.HandleCall | app/lib/rpc-transport.ts:222-257 | a plain read is served only the reply to the same call, or starts a job for exactly this call; a write opens a new generation |
| RpcTransport.Transport.StartJob | app/lib/rpc-transport.ts:172-190 | a new request starts at the first provider in order; a write opens a new generation and empties the cache |
| RpcTransport.Transport.ChooseProvider | app/lib/rpc-transport.ts:190-205 | a cooling or foreign provider is skipped, a verified one is used, any other is checked first, once for all jobs |
| RpcTransport.Transport.Acquire | app/lib/rpc-transport.ts:58-64 | takes a free permit or queues |
| RpcTransport.Transport.Release | app/lib/rpc-transport.ts:65-69 | hands the permit over or frees it |
| RpcTransport.Transport.SendRequest | app/lib/rpc-transport.ts:80-141 | sends exactly once, and not at all when cooling down or cancelled |
| RpcTransport.Transport.SettleJob | app/lib/rpc-transport.ts:190-214 | a reply ends the job and makes its provider preferred; a failed read goes to the next provider unless its caller has gone; a failed write ends and is never sent again |
| RpcTransport.Transport.SettleProbe | app/lib/rpc-transport.ts:143-205 | a cluster check answers every job waiting on it: on to the request, to the next provider, or to the end; nothing is sent |
| RpcTransport.Transport.AcceptReply | app/lib/rpc-transport.ts:205-243 | exactly the results of cacheable shared reads enter the cache, and a write empties it |
| RpcTransport.Transport.StoreReply | app/lib/rpc-transport.ts:236-243 | the reply is cached under its own key, and entries leave only at the limit |
| RpcTransport.Transport.Run | app/lib/rpc-transport.ts:36-274 | in every interleaving: at most three permits, waiters only when all are held, no write sent twice, no read sent twice to a provider, nothing sent to a provider that has not passed the cluster check, no reply served to another call or across a write, at most 128 cached results |
| Amounts.ParseInvertsFormat | app/lib/tidebook.ts:525-553 | every positive u64 amount survives being shown and typed back, for every number of decimals; zero and larger amounts are refused |
| Amounts.ParseExactly | app/lib/tidebook.ts:525-553 | canonical digits with at most `decimals` places, worth one atom to u64, are read as exactly that many atoms |
| Amounts.ParseNeedsNumeral | app/lib/tidebook.ts:525-553 | every other text is refused |
| Amounts.FormatIsInjective | app/lib/tidebook.ts:642-652 | two amounts never look the same |
| Amounts.FormatInvertsParse | app/lib/tidebook.ts:642-652 | an accepted text is shown back without surrounding space and trailing zeros |

## Left out

- Account identity is reduced to the book key: the market field repeated in every account, bumps and mints are not modelled.
- Error codes are reduced to refusal; which of several failing checks reports first is not modelled.
- The clock, a spot market's status, admin records and evidence checks enter as parameters (`now`, `open`, `active`, `evidence`).
- Token transfers between vaults, rent lamports and account sizes; the rent recipient is modelled as a routing account.
- `handle_withdraw_shared_fees` and `handle_close_shared_book`: single-branch administrative moves.
- Legacy per-market handlers (`match_limit_order`, `insert_limit_order` and the like) repeat the shared ones; `planBoundedMatches` is modelled on the same heap.
- The overlay's account cache: reads of an unchanged snapshot, so the overlay is a copy of it.
- Transaction size and compute limits, `buildPredictionMatchTransaction`, `assertSharedTransactionFits`.
- `fetchPriceLevelSide` and `fetchLatestTrade`: an unchecked form of `ReadDepth`, and a log scan.
- Event decoding and report output: a finite table over payloads that no property here depends on.
- Checkpoints.Store.Persist: does not model event rows; they commit or roll back with their transaction row.
- Checkpoints.Store.RunAll: the history is one arbitrary finite sequence of which requests see growing prefixes; forks of finalized history are not modelled.
- LogFrames.AttributionExactly: assumes program keys without space or colon, data without a bracket, error text that holds no invocation marker and does not end like a success line, and other runtime lines the parsers ignore; truncated logs are not modelled.
- RpcTransport.Transport.Run: says nothing about progress; pacing, cooldown and cache lifetimes may end at any step, and eviction may take any entry.
- The permit count includes the cluster checks, whose sends are not part of the observed record.
