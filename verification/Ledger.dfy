/** Free and locked claims behind the book: what each instruction moves, and what every instruction keeps. */
module Ledger {
  import opened Base
  import opened Settlement
  import opened BookHeap
  import opened Removal
  import opened Updates
  import opened Insertion

  /** A trader's quote cash, or the trader's base asset or outcome contracts. */
  datatype Purse = Cash(owner: Pubkey) | Claim(owner: Pubkey, outcome: Outcome)

  datatype Bucket = Bucket(free: u64, locked: u64)

  type Funds = map<Purse, Bucket>

  /** The purse a resting order's lock is taken from. */
  function PurseFor(owner: Pubkey, l: ListId): Purse {
    if l.side.Bid? then Cash(owner) else Claim(owner, l.outcome)
  }

  function LockAt(orders: map<Key, Order>, book: Pubkey, id: u64, p: Purse): nat {
    if OpenAt(orders, book, id) && PurseFor(orders[OrderKey(book, id)].owner, orders[OrderKey(book, id)].list) == p
    then orders[OrderKey(book, id)].locked else 0
  }

  /** Sum of the locks of this book's open orders with ids below n that are taken from p. */
  function LockSum(orders: map<Key, Order>, book: Pubkey, n: u64, p: Purse): nat {
    if n == 0 then 0 else LockSum(orders, book, n - 1, p) + LockAt(orders, book, n - 1, p)
  }

  ghost predicate PurseBacks(h: Heap, funds: Funds, elsewhere: map<Purse, nat>, p: Purse) {
    && p in funds && p in elsewhere
    && funds[p].locked == elsewhere[p] + LockSum(h.orders, h.root.key, h.root.nextId, p)
  }

  /**
   * Every locked bucket is exactly the sum of the locks of its owner's open orders; `elsewhere` is what the same
   * wallet has locked in other books, which no instruction of this book may touch.
   */
  ghost predicate Backing(h: Heap, funds: Funds, elsewhere: map<Purse, nat>) {
    && (forall p <- funds :: PurseBacks(h, funds, elsewhere, p))
    && (forall k <- h.orders :: k.book == h.root.key && h.orders[k].status.Open? ==>
          PurseFor(h.orders[k].owner, h.orders[k].list) in funds)
  }

  /** Best bid below best ask, for every outcome. */
  ghost predicate Uncrossed(v: View) {
    forall l <- v.prices | l.side.Bid? && OtherSide(l) in v.prices && v.prices[l] != [] && v.prices[OtherSide(l)] != [] ::
      v.prices[l][0] < v.prices[OtherSide(l)][0]
  }

  ghost predicate Consistent(h: Heap, v: View, funds: Funds, elsewhere: map<Purse, nat>) {
    && WellFormed(h, v)
    && Backing(h, funds, elsewhere)
    && Uncrossed(v)
  }

  lemma ConsistentIsWellFormed(h: Heap, v: View, funds: Funds, elsewhere: map<Purse, nat>)
    requires Consistent(h, v, funds, elsewhere)
    ensures WellFormed(h, v)
  {
  }

  /** No bid anywhere in the book reaches an ask of the same outcome. */
  lemma NoBidReachesAnAsk(h: Heap, v: View, funds: Funds, elsewhere: map<Purse, nat>, outcome: Outcome, i: nat, j: nat)
    requires Consistent(h, v, funds, elsewhere)
    requires ListId(outcome, Bid) in v.prices && i < |v.prices[ListId(outcome, Bid)]|
    requires ListId(outcome, Ask) in v.prices && j < |v.prices[ListId(outcome, Ask)]|
    ensures v.prices[ListId(outcome, Bid)][i] < v.prices[ListId(outcome, Ask)][j]
  {
    var b, a := ListId(outcome, Bid), ListId(outcome, Ask);
    assert OtherSide(b) == a;
    assert Ladder(h, b, v.prices[b]) && Ladder(h, a, v.prices[a]);
    hide Queues, NoStray, Backing;
    assert v.prices[b][0] < v.prices[a][0];
  }

  // ------------------------------------------------------------ sums of locks

  lemma {:induction false} LockFrame(a: map<Key, Order>, b: map<Key, Order>, book: Pubkey, n: u64, p: Purse)
    requires forall id: u64 | id < n :: LockAt(a, book, id, p) == LockAt(b, book, id, p)
    ensures LockSum(a, book, n, p) == LockSum(b, book, n, p)
  {
    if n > 0 { LockFrame(a, b, book, n - 1, p); }
  }

  lemma {:induction false} LockChange(a: map<Key, Order>, b: map<Key, Order>, book: Pubkey, n: u64, x: u64, p: Purse)
    requires x < n
    requires forall id: u64 | id < n && id != x :: LockAt(a, book, id, p) == LockAt(b, book, id, p)
    ensures LockSum(b, book, n, p) + LockAt(a, book, x, p) == LockSum(a, book, n, p) + LockAt(b, book, x, p)
  {
    if n - 1 == x {
      LockFrame(a, b, book, n - 1, p);
    } else {
      LockChange(a, b, book, n - 1, x, p);
    }
  }

  lemma {:induction false} LockWithinSum(a: map<Key, Order>, book: Pubkey, n: u64, x: u64, p: Purse)
    requires x < n
    ensures LockAt(a, book, x, p) <= LockSum(a, book, n, p)
  {
    if x < n - 1 { LockWithinSum(a, book, n - 1, x, p); }
  }

  /** The check "Maker position does not back its order" never fires. */
  lemma OpenOrderIsBacked(h: Heap, funds: Funds, elsewhere: map<Purse, nat>, rk: Key)
    requires Backing(h, funds, elsewhere)
    requires rk in h.orders && rk.OrderKey? && rk.book == h.root.key && h.orders[rk].status.Open? && rk.id < h.root.nextId
    ensures PurseFor(h.orders[rk].owner, h.orders[rk].list) in funds
    ensures h.orders[rk].locked <= funds[PurseFor(h.orders[rk].owner, h.orders[rk].list)].locked
  {
    var p := PurseFor(h.orders[rk].owner, h.orders[rk].list);
    assert PurseBacks(h, funds, elsewhere, p);
    assert OpenAt(h.orders, h.root.key, rk.id);
    LockWithinSum(h.orders, h.root.key, h.root.nextId, rk.id, p);
  }

  /** One order's lock changed by `before - after`; the same amount left (or joined) the locked bucket of its purse. */
  lemma BackingFollowsOrder(h: Heap, h': Heap, funds: Funds, funds': Funds, elsewhere: map<Purse, nat>, rk: Key, p: Purse)
    requires Backing(h, funds, elsewhere) && rk.OrderKey? && rk.id < h.root.nextId && p in funds
    requires h'.root.key == h.root.key && h'.root.nextId == h.root.nextId
    requires funds'.Keys == funds.Keys
    requires forall q <- funds :: q != p ==> funds'[q].locked == funds[q].locked
    requires forall id: u64, q | id != rk.id :: LockAt(h.orders, h.root.key, id, q) == LockAt(h'.orders, h.root.key, id, q)
    requires forall q :: q != p ==> LockAt(h.orders, h.root.key, rk.id, q) == 0 == LockAt(h'.orders, h.root.key, rk.id, q)
    requires funds'[p].locked + LockAt(h.orders, h.root.key, rk.id, p) == funds[p].locked + LockAt(h'.orders, h.root.key, rk.id, p)
    requires forall k <- h'.orders :: k.book == h.root.key && h'.orders[k].status.Open? ==>
      PurseFor(h'.orders[k].owner, h'.orders[k].list) in funds
    ensures Backing(h', funds', elsewhere)
  {
    forall q <- funds' ensures PurseBacks(h', funds', elsewhere, q) {
      assert PurseBacks(h, funds, elsewhere, q);
      LockChange(h.orders, h'.orders, h.root.key, h.root.nextId, rk.id, q);
    }
  }

  // ------------------------------------------------------------------ cancelling

  /** locked back to free within one bucket. */
  function UnlockFunds(funds: Funds, p: Purse, amount: nat): Option<Funds> {
    if p !in funds || funds[p].locked < amount || funds[p].free + amount > U64_MAX then None
    else Some(funds[p := Bucket(funds[p].free + amount, funds[p].locked - amount)])
  }

  function CancelledOrder(o: Order): Order {
    o.(status := Canceled, locked := 0, previous := None, next := None)
  }

  lemma RetireLocks(h: Heap, v: View, rk: Key, o': Order, q: Purse, id: u64)
    requires WellFormed(h, v)
    requires rk in h.orders && rk.book == h.root.key && h.orders[rk].status.Open? && Detachable(h, rk)
    requires !o'.status.Open?
    ensures rk.OrderKey? && rk.id < h.root.nextId
    ensures id != rk.id ==> LockAt(h.orders, h.root.key, id, q) == LockAt(Retired(h, rk, o').orders, h.root.key, id, q)
    ensures LockAt(Retired(h, rk, o').orders, h.root.key, rk.id, q) == 0
    ensures LockAt(h.orders, h.root.key, rk.id, q)
      == if q == PurseFor(h.orders[rk].owner, h.orders[rk].list) then h.orders[rk].locked else 0
  {
    hide Linked;
    DetachKeepsIdentity(h.orders, h.orders[rk], OrderKey(h.root.key, id));
  }

  lemma RetireBacking(h: Heap, v: View, funds: Funds, funds': Funds, elsewhere: map<Purse, nat>, rk: Key, o': Order)
    requires WellFormed(h, v) && Backing(h, funds, elsewhere)
    requires rk in h.orders && rk.book == h.root.key && h.orders[rk].status.Open? && Detachable(h, rk)
    requires !o'.status.Open?
    requires var p := PurseFor(h.orders[rk].owner, h.orders[rk].list);
      && p in funds && funds'.Keys == funds.Keys
      && (forall q <- funds :: q != p ==> funds'[q].locked == funds[q].locked)
      && funds'[p].locked + h.orders[rk].locked == funds[p].locked
    ensures Backing(Retired(h, rk, o'), funds', elsewhere)
  {
    var p := PurseFor(h.orders[rk].owner, h.orders[rk].list);
    var h' := Retired(h, rk, o');
    forall id: u64, q ensures
      && (id != rk.id ==> LockAt(h.orders, h.root.key, id, q) == LockAt(h'.orders, h.root.key, id, q))
      && LockAt(h'.orders, h.root.key, rk.id, q) == 0
      && LockAt(h.orders, h.root.key, rk.id, q) == (if q == p then h.orders[rk].locked else 0)
    {
      RetireLocks(h, v, rk, o', q, id);
    }
    forall k <- h'.orders | k.book == h.root.key && h'.orders[k].status.Open?
      ensures PurseFor(h'.orders[k].owner, h'.orders[k].list) in funds
    {
      DetachKeepsIdentity(h.orders, h.orders[rk], k);
    }
    hide WellFormed;
    BackingFollowsOrder(h, h', funds, funds', elsewhere, rk, p);
  }

  lemma DeletionKeepsUncrossed(h: Heap, v: View, k: Key, id: u64)
    requires Linked(h, v) && Uncrossed(v) && Stands(v, k, id)
    ensures Uncrossed(Deleted(v, k, id))
  {
    var ps := v.prices[k.list];
    assert Ladder(h, k.list, ps);
    hide Linked;
    if |Without(v.queue[k], id)| == 0 {
      var ps' := Without(ps, k.price);
      assert ps' != [] ==> ps'[0] == ps[0] || Precedes(k.list.side, ps[0], ps'[0]);
    }
  }

  lemma OpenOrderFacts(h: Heap, v: View, rk: Key)
    requires WellFormed(h, v) && rk in h.orders && rk.book == h.root.key
    ensures rk.OrderKey? && rk == OrderKey(h.root.key, rk.id) && 0 < rk.id < h.root.nextId
    ensures h.orders[rk].id == rk.id && h.orders[rk].book == rk.book
  {
  }

  /** Cancelling returns exactly the order's lock and keeps every invariant of the exchange. */
  lemma CancelKeepsConsistent(h: Heap, v: View, funds: Funds, elsewhere: map<Purse, nat>, rk: Key)
    requires Consistent(h, v, funds, elsewhere)
    requires rk in h.orders && rk.book == h.root.key && h.orders[rk].status.Open?
    ensures Detachable(h, rk) && Stands(v, h.orders[rk].priceLevel, rk.id)
    ensures var p := PurseFor(h.orders[rk].owner, h.orders[rk].list);
      var amount := h.orders[rk].locked;
      && p in funds && amount <= funds[p].locked
      && (UnlockFunds(funds, p, amount).Some? ==>
            Consistent(Retired(h, rk, CancelledOrder(h.orders[rk])), Deleted(v, h.orders[rk].priceLevel, rk.id),
                       UnlockFunds(funds, p, amount).value, elsewhere))
  {
    hide Linked, NoStray, Backing, Uncrossed;
    OpenOrderFacts(h, v, rk);
    RetireKeepsWellFormed(h, v, rk, CancelledOrder(h.orders[rk]));
    OpenOrderIsBacked(h, funds, elsewhere, rk);
    DeletionKeepsUncrossed(h, v, h.orders[rk].priceLevel, rk.id);
    var p := PurseFor(h.orders[rk].owner, h.orders[rk].list);
    if UnlockFunds(funds, p, h.orders[rk].locked).Some? {
      RetireBacking(h, v, funds, UnlockFunds(funds, p, h.orders[rk].locked).value, elsewhere, rk, CancelledOrder(h.orders[rk]));
    }
  }

  // ------------------------------------------------------------------- placing

  /** `lock`: free to locked within one bucket. */
  function LockFunds(funds: Funds, p: Purse, amount: nat): Option<Funds> {
    if p !in funds || funds[p].free < amount || funds[p].locked + amount > U64_MAX then None
    else Some(funds[p := Bucket(funds[p].free - amount, funds[p].locked + amount)])
  }

  lemma PlaceBacking(h: Heap, h': Heap, funds: Funds, elsewhere: map<Purse, nat>, no: Order)
    requires Backing(h, funds, elsewhere)
    requires h.root.nextId < U64_MAX && h'.root.key == h.root.key && h'.root.nextId == h.root.nextId + 1
    requires OrderKey(h.root.key, h.root.nextId) in h'.orders && h'.orders[OrderKey(h.root.key, h.root.nextId)] == no
    requires no.status.Open? && LockFunds(funds, PurseFor(no.owner, no.list), no.locked).Some?
    requires forall k <- h'.orders :: k == OrderKey(h.root.key, h.root.nextId) || SameTerms(h.orders, h'.orders, k)
    requires forall k <- h.orders :: k in h'.orders && k != OrderKey(h.root.key, h.root.nextId)
    ensures Backing(h', LockFunds(funds, PurseFor(no.owner, no.list), no.locked).value, elsewhere)
  {
    var p := PurseFor(no.owner, no.list);
    var funds' := LockFunds(funds, p, no.locked).value;
    forall q <- funds' ensures PurseBacks(h', funds', elsewhere, q) {
      assert PurseBacks(h, funds, elsewhere, q);
      forall id: u64 | id < h.root.nextId
        ensures LockAt(h.orders, h.root.key, id, q) == LockAt(h'.orders, h.root.key, id, q)
      {
        assert OrderKey(h.root.key, id) in h'.orders ==> SameTerms(h.orders, h'.orders, OrderKey(h.root.key, id));
      }
      LockFrame(h.orders, h'.orders, h.root.key, h.root.nextId, q);
    }
    forall k <- h'.orders | k.book == h'.root.key && h'.orders[k].status.Open?
      ensures PurseFor(h'.orders[k].owner, h'.orders[k].list) in funds'
    {
      assert k == OrderKey(h.root.key, h.root.nextId) || SameTerms(h.orders, h'.orders, k);
    }
  }

  /** Only FIFO links may differ. */
  ghost predicate SameTerms(a: map<Key, Order>, b: map<Key, Order>, k: Key) {
    k in a && k in b && b[k] == a[k].(previous := b[k].previous, next := b[k].next)
  }

  /** `validate_resting_order`: a price may rest only strictly inside the opposing best. */
  predicate WouldCross(root: Root, l: ListId, price: nat)
    requires Legal(root.kind, l)
  {
    var opposite := root.best[OtherSlot(Slot(root.kind, l).value)];
    opposite.Some? && (if l.side.Bid? then price >= opposite.value else price <= opposite.value)
  }

  lemma InsertionKeepsUncrossed(h: Heap, v: View, l: ListId, price: u64, g: nat, queue: map<Key, seq<u64>>)
    requires Linked(h, v) && Uncrossed(v) && l in v.prices && !WouldCross(h.root, l, price)
    requires IsGap(l.side, v.prices[l], price, g)
    ensures Uncrossed(View(v.prices[l := InsertAt(v.prices[l], g, price)], queue))
  {
    assert Legal(h.root.kind, l);
    var o := OtherSide(l);
    assert Legal(h.root.kind, o) && o in v.prices && OtherSide(o) == l;
    assert Ladder(h, l, v.prices[l]) && Ladder(h, o, v.prices[o]);
    SlotInjective(h.root.kind, l, o);
    hide Linked;
    assert InsertAt(v.prices[l], g, price)[0] == if g == 0 then price else v.prices[l][0];
  }

  lemma AppendKeepsConsistent(h: Heap, v: View, funds: Funds, elsewhere: map<Purse, nat>, lk: Key, no: Order)
    requires Consistent(h, v, funds, elsewhere)
    requires lk in v.queue && AppendReady(h, lk, v.queue[lk], no)
    requires LockFunds(funds, PurseFor(no.owner, no.list), no.locked).Some?
    ensures Consistent(Appended(h, lk, no), View(v.prices, v.queue[lk := v.queue[lk] + [no.id]]),
                       LockFunds(funds, PurseFor(no.owner, no.list), no.locked).value, elsewhere)
  {
    hide WellFormed, Backing, Backed, OnGrid;
    AppendKeepsWellFormed(h, v, lk, no);
    PlaceBacking(h, Appended(h, lk, no), funds, elsewhere, no);
  }

  lemma InsertKeepsConsistent(h: Heap, v: View, funds: Funds, elsewhere: map<Purse, nat>, l: ListId, g: nat, no: Order, new_: Level)
    requires Consistent(h, v, funds, elsewhere)
    requires l in v.prices && InsertReady(h, l, v.prices[l], g, no, new_) && !WouldCross(h.root, l, no.price)
    requires LockFunds(funds, PurseFor(no.owner, no.list), no.locked).Some?
    ensures Consistent(Inserted(h, no, new_),
                       View(v.prices[l := InsertAt(v.prices[l], g, no.price)], v.queue[LevelKey(h.root.key, l, no.price) := [no.id]]),
                       LockFunds(funds, PurseFor(no.owner, no.list), no.locked).value, elsewhere)
  {
    hide Linked, NoStray, Backing, Uncrossed, Backed, OnGrid, Ladder;
    InsertKeepsWellFormed(h, v, l, g, no, new_);
    PlaceBacking(h, Inserted(h, no, new_), funds, elsewhere, no);
    InsertionKeepsUncrossed(h, v, l, no.price, g, v.queue[LevelKey(h.root.key, l, no.price) := [no.id]]);
  }

  // ------------------------------------------------------------------ matching

  /** One fill between two traders: what moves, in base units and quote atoms. */
  datatype Trade = Trade(taker: Pubkey, maker: Pubkey, outcome: Outcome, takerSide: Side, base: nat, quote: nat,
                         debit: nat, refund: nat, fee: nat)

  function SettleBuy(funds: Funds, t: Trade): Option<Funds>
    requires TradeAccounts(funds, t)
  {
    var tc, mc := funds[Cash(t.taker)], funds[Cash(t.maker)];
    var tb, mb := funds[Claim(t.taker, t.outcome)], funds[Claim(t.maker, t.outcome)];
    if t.quote + t.fee > U64_MAX || tc.free < t.quote + t.fee || mc.free + t.quote > U64_MAX
       || mb.locked < t.debit || tb.free + t.base > U64_MAX then None
    else Some(funds[Cash(t.taker) := tc.(free := tc.free - (t.quote + t.fee))]
                   [Cash(t.maker) := mc.(free := mc.free + t.quote)]
                   [Claim(t.maker, t.outcome) := mb.(locked := mb.locked - t.debit)]
                   [Claim(t.taker, t.outcome) := tb.(free := tb.free + t.base)])
  }

  function SettleSell(funds: Funds, t: Trade): Option<Funds>
    requires TradeAccounts(funds, t)
  {
    var tc, mc := funds[Cash(t.taker)], funds[Cash(t.maker)];
    var tb, mb := funds[Claim(t.taker, t.outcome)], funds[Claim(t.maker, t.outcome)];
    if t.fee > t.quote || tb.free < t.base || mb.free + t.base > U64_MAX
       || tc.free + (t.quote - t.fee) > U64_MAX || mc.locked < t.debit || mc.free + t.refund > U64_MAX then None
    else Some(funds[Claim(t.taker, t.outcome) := tb.(free := tb.free - t.base)]
                   [Claim(t.maker, t.outcome) := mb.(free := mb.free + t.base)]
                   [Cash(t.taker) := tc.(free := tc.free + (t.quote - t.fee))]
                   [Cash(t.maker) := Bucket(mc.free + t.refund, mc.locked - t.debit)])
  }

  predicate TradeAccounts(funds: Funds, t: Trade) {
    && t.taker != t.maker
    && Cash(t.taker) in funds && Cash(t.maker) in funds
    && Claim(t.taker, t.outcome) in funds && Claim(t.maker, t.outcome) in funds
  }

  /** The claim movements of `handle_match_shared_order`; None is a funds, overflow or account error. */
  function SettleFunds(funds: Funds, t: Trade): Option<Funds> {
    if !TradeAccounts(funds, t) then None
    else if t.takerSide.Bid? then SettleBuy(funds, t)
    else SettleSell(funds, t)
  }

  function MakerPurse(t: Trade): Purse {
    PurseFor(t.maker, ListId(t.outcome, Opposite(t.takerSide)))
  }

  function Worth(funds: Funds, p: Purse): nat {
    if p in funds then funds[p].free + funds[p].locked else 0
  }

  /** What a lock pays out equals what the plan says: quote plus refund for a bid, base units for an ask. */
  ghost predicate DebitPays(t: Trade) {
    t.debit == if t.takerSide.Ask? then t.quote + t.refund else t.base
  }

  /**
   * One settlement: only the maker's purse unlocks, by exactly the debit; cash moves between the two traders and the
   * fee account without loss; contracts move without loss; nobody else is touched.
   */
  lemma SettlementConserves(funds: Funds, t: Trade)
    requires SettleFunds(funds, t).Some? && DebitPays(t)
    ensures var after := SettleFunds(funds, t).value;
      && after.Keys == funds.Keys && MakerPurse(t) in funds
      && after[MakerPurse(t)].locked + t.debit == funds[MakerPurse(t)].locked
      && (forall p <- funds :: p != MakerPurse(t) ==> after[p].locked == funds[p].locked)
      && Worth(after, Cash(t.taker)) + Worth(after, Cash(t.maker)) + t.fee == Worth(funds, Cash(t.taker)) + Worth(funds, Cash(t.maker))
      && (forall o :: Worth(after, Claim(t.taker, o)) + Worth(after, Claim(t.maker, o))
                      == Worth(funds, Claim(t.taker, o)) + Worth(funds, Claim(t.maker, o)))
      && (forall p: Purse :: p.owner != t.taker && p.owner != t.maker ==> Worth(after, p) == Worth(funds, p))
  {
  }

  // ------------------------------------------------------- what each trader sees

  /** The free and the locked amount of one purse change by exactly this much. */
  ghost predicate Moves(before: Funds, after: Funds, p: Purse, free: int, locked: int) {
    && p in before && p in after
    && after[p].free == before[p].free + free
    && after[p].locked == before[p].locked + locked
  }

  ghost predicate OthersKept(before: Funds, after: Funds, moved: set<Purse>) {
    && after.Keys == before.Keys
    && forall p <- before :: p !in moved ==> after[p] == before[p]
  }

  /** The taker buys: cash for contracts, the maker's locked contracts for cash. */
  ghost predicate BuyPaid(before: Funds, after: Funds, taker: Pubkey, maker: Pubkey, outcome: Outcome, base: nat, quote: nat, fee: nat) {
    && Moves(before, after, Cash(taker), 0 - (quote + fee), 0)
    && Moves(before, after, Claim(taker, outcome), base, 0)
    && Moves(before, after, Cash(maker), quote, 0)
    && Moves(before, after, Claim(maker, outcome), 0, 0 - base)
    && OthersKept(before, after, {Cash(taker), Claim(taker, outcome), Cash(maker), Claim(maker, outcome)})
  }

  /** The taker sells: contracts for cash less the fee; the maker's lock pays the price, and what is left over is freed. */
  ghost predicate SellPaid(before: Funds, after: Funds, taker: Pubkey, maker: Pubkey, outcome: Outcome, base: nat, quote: nat, fee: nat,
                           debit: nat)
  {
    && Moves(before, after, Cash(taker), quote - fee, 0)
    && Moves(before, after, Claim(taker, outcome), 0 - base, 0)
    && Moves(before, after, Cash(maker), debit - quote, 0 - debit)
    && Moves(before, after, Claim(maker, outcome), base, 0)
    && OthersKept(before, after, {Cash(taker), Claim(taker, outcome), Cash(maker), Claim(maker, outcome)})
  }

  predicate HasAccounts(funds: Funds, owner: Pubkey, outcome: Outcome) {
    Cash(owner) in funds && Claim(owner, outcome) in funds
  }

  /** The taker can pay the price and the fee, both sides have room for what they receive, the maker's contracts are locked. */
  predicate BuyPossible(funds: Funds, taker: Pubkey, maker: Pubkey, outcome: Outcome, base: nat, quote: nat, fee: nat) {
    && taker != maker && HasAccounts(funds, taker, outcome) && HasAccounts(funds, maker, outcome)
    && quote + fee <= funds[Cash(taker)].free
    && funds[Claim(taker, outcome)].free + base <= U64_MAX
    && funds[Cash(maker)].free + quote <= U64_MAX
    && base <= funds[Claim(maker, outcome)].locked
  }

  /** The taker has the contracts, both sides have room for what they receive, the maker's cash is locked. */
  predicate SellPossible(funds: Funds, taker: Pubkey, maker: Pubkey, outcome: Outcome, base: nat, quote: nat, fee: nat, debit: nat)
  {
    && taker != maker && HasAccounts(funds, taker, outcome) && HasAccounts(funds, maker, outcome)
    && fee <= quote <= debit
    && base <= funds[Claim(taker, outcome)].free
    && funds[Cash(taker)].free + (quote - fee) <= U64_MAX
    && funds[Claim(maker, outcome)].free + base <= U64_MAX
    && debit <= funds[Cash(maker)].locked
    && funds[Cash(maker)].free + (debit - quote) <= U64_MAX
  }

  /** A settlement is refused exactly where someone cannot pay or receive, and otherwise pays everyone in full. */
  lemma SettlementPays(funds: Funds, t: Trade)
    requires DebitPays(t)
    ensures var r := SettleFunds(funds, t);
      if t.takerSide.Bid? then
        && (r.Some? <==> BuyPossible(funds, t.taker, t.maker, t.outcome, t.base, t.quote, t.fee))
        && (r.Some? ==> BuyPaid(funds, r.value, t.taker, t.maker, t.outcome, t.base, t.quote, t.fee))
      else
        && (r.Some? <==> SellPossible(funds, t.taker, t.maker, t.outcome, t.base, t.quote, t.fee, t.debit))
        && (r.Some? ==> SellPaid(funds, r.value, t.taker, t.maker, t.outcome, t.base, t.quote, t.fee, t.debit))
  {
  }

  /** Placing moves the amount from free to locked, and is refused exactly when it is not free or does not fit. */
  lemma LockingMoves(funds: Funds, p: Purse, amount: nat)
    ensures LockFunds(funds, p, amount).Some? <==> p in funds && amount <= funds[p].free && funds[p].locked + amount <= U64_MAX
    ensures LockFunds(funds, p, amount).Some? ==>
      var after := LockFunds(funds, p, amount).value;
      Moves(funds, after, p, 0 - amount, amount) && OthersKept(funds, after, {p})
  {
  }

  /** Cancelling moves it back, and is refused exactly when it is not locked or does not fit. */
  lemma UnlockingMoves(funds: Funds, p: Purse, amount: nat)
    ensures UnlockFunds(funds, p, amount).Some? <==> p in funds && amount <= funds[p].locked && funds[p].free + amount <= U64_MAX
    ensures UnlockFunds(funds, p, amount).Some? ==>
      var after := UnlockFunds(funds, p, amount).value;
      Moves(funds, after, p, amount, 0 - amount) && OthersKept(funds, after, {p})
  {
  }

  function PurseOf(asset: Option<Outcome>, owner: Pubkey): Purse {
    if asset.None? then Cash(owner) else Claim(owner, asset.value)
  }

  /** Everything owners numbered below n hold of one asset: cash, or the contracts of one outcome. */
  function TotalWorth(funds: Funds, asset: Option<Outcome>, n: nat): nat {
    if n == 0 then 0 else TotalWorth(funds, asset, n - 1) + Worth(funds, PurseOf(asset, n - 1))
  }

  lemma {:induction false} TotalWorthChange(a: Funds, b: Funds, asset: Option<Outcome>, n: nat, x: Pubkey, y: Pubkey)
    requires x != y
    requires forall w: nat | w != x && w != y :: Worth(a, PurseOf(asset, w)) == Worth(b, PurseOf(asset, w))
    ensures TotalWorth(a, asset, n) + (if x < n then Worth(b, PurseOf(asset, x)) else 0) + (if y < n then Worth(b, PurseOf(asset, y)) else 0)
         == TotalWorth(b, asset, n) + (if x < n then Worth(a, PurseOf(asset, x)) else 0) + (if y < n then Worth(a, PurseOf(asset, y)) else 0)
  {
    if n > 0 { TotalWorthChange(a, b, asset, n - 1, x, y); }
  }

  /** Summed over all traders: cash plus fees is constant, and so is every outcome's contract total. */
  lemma FillConservesTotals(funds: Funds, t: Trade, n: nat)
    requires SettleFunds(funds, t).Some? && DebitPays(t) && t.taker < n && t.maker < n
    ensures var after := SettleFunds(funds, t).value;
      && TotalWorth(after, None, n) + t.fee == TotalWorth(funds, None, n)
      && forall o :: TotalWorth(after, Some(o), n) == TotalWorth(funds, Some(o), n)
  {
    var after := SettleFunds(funds, t).value;
    SettlementConserves(funds, t);
    hide SettleFunds;
    TotalWorthChange(funds, after, None, n, t.taker, t.maker);
    forall o ensures TotalWorth(after, Some(o), n) == TotalWorth(funds, Some(o), n) {
      TotalWorthChange(funds, after, Some(o), n, t.taker, t.maker);
    }
  }

  function FilledOrder(o: Order): Order {
    o.(remaining := 0, locked := 0, status := Filled, previous := None, next := None)
  }

  /** A complete fill of the maker: its order leaves the book and its whole lock leaves its purse. */
  lemma FullFillKeepsConsistent(h: Heap, v: View, funds: Funds, elsewhere: map<Purse, nat>, rk: Key, t: Trade)
    requires Consistent(h, v, funds, elsewhere)
    requires rk in h.orders && rk.book == h.root.key && h.orders[rk].status.Open?
    requires t.maker == h.orders[rk].owner && ListId(t.outcome, Opposite(t.takerSide)) == h.orders[rk].list
    requires t.debit == h.orders[rk].locked && DebitPays(t) && SettleFunds(funds, t).Some?
    ensures Detachable(h, rk) && Stands(v, h.orders[rk].priceLevel, rk.id)
    ensures Consistent(Retired(h, rk, FilledOrder(h.orders[rk])), Deleted(v, h.orders[rk].priceLevel, rk.id),
                       SettleFunds(funds, t).value, elsewhere)
  {
    hide Linked, NoStray, Backing, Uncrossed;
    OpenOrderFacts(h, v, rk);
    RetireKeepsWellFormed(h, v, rk, FilledOrder(h.orders[rk]));
    DeletionKeepsUncrossed(h, v, h.orders[rk].priceLevel, rk.id);
    SettlementConserves(funds, t);
    hide SettleFunds;
    RetireBacking(h, v, funds, SettleFunds(funds, t).value, elsewhere, rk, FilledOrder(h.orders[rk]));
  }

  /** A partial fill: the maker keeps its place and its lock shrinks by the debit. */
  lemma PartialFillKeepsConsistent(h: Heap, v: View, funds: Funds, elsewhere: map<Purse, nat>, rk: Key, t: Trade)
    requires Consistent(h, v, funds, elsewhere)
    requires rk in h.orders && rk.book == h.root.key && h.orders[rk].status.Open?
    requires t.maker == h.orders[rk].owner && ListId(t.outcome, Opposite(t.takerSide)) == h.orders[rk].list
    requires t.base < h.orders[rk].remaining && t.debit <= h.orders[rk].locked && DebitPays(t) && SettleFunds(funds, t).Some?
    requires var o := h.orders[rk];
      Backed(o.list.side, h.root.decimals, o.price, o.remaining - t.base, o.locked - t.debit)
    ensures Fillable(h, rk, t.base, t.debit)
    ensures Consistent(PartlyFilled(h, rk, t.base, t.debit), v, SettleFunds(funds, t).value, elsewhere)
  {
    hide Linked, NoStray, Backing, Uncrossed, Backed;
    OpenOrderFacts(h, v, rk);
    PartialFillKeepsWellFormed(h, v, rk, t.base, t.debit);
    SettlementConserves(funds, t);
    hide SettleFunds;
    PartialFillBacking(h, funds, SettleFunds(funds, t).value, elsewhere, rk, t.base, t.debit);
  }

  lemma PartialFillBacking(h: Heap, funds: Funds, funds': Funds, elsewhere: map<Purse, nat>, rk: Key, fill: nat, debit: nat)
    requires Backing(h, funds, elsewhere) && Fillable(h, rk, fill, debit)
    requires rk.OrderKey? && rk.book == h.root.key && rk.id < h.root.nextId && h.orders[rk].status.Open?
    requires var p := PurseFor(h.orders[rk].owner, h.orders[rk].list);
      && p in funds && funds'.Keys == funds.Keys
      && (forall q <- funds :: q != p ==> funds'[q].locked == funds[q].locked)
      && funds'[p].locked + debit == funds[p].locked
    ensures Backing(PartlyFilled(h, rk, fill, debit), funds', elsewhere)
  {
    var p := PurseFor(h.orders[rk].owner, h.orders[rk].list);
    BackingFollowsOrder(h, PartlyFilled(h, rk, fill, debit), funds, funds', elsewhere, rk, p);
  }
}
