/**
 * A prediction market around its order book: complete sets are minted and burned against a reserve, contracts change
 * hands on the book, an outcome is published, and claims are redeemed. Over every run the reserve is exactly what the
 * outstanding contracts can claim.
 */
module CompleteSets {
  import opened Base
  import opened BookHeap
  import opened Ledger
  import opened Instructions
  import opened Promises
  import opened Exchange
  import opened Lifecycle

  /** What the reserve owes for contracts outstanding: one payout per pair until resolved, then by outcome. */
  function Liability(final: Option<Verdict>, payout: nat, yes: nat, no: nat): nat {
    match final
    case None => yes * payout
    case Some(YesWins) => yes * payout
    case Some(NoWins) => no * payout
    case Some(Invalid) => (yes + no) * (payout / 2)
  }

  /** Redemption of `yes` and `no` contracts under the published outcome. */
  function PayoutOf(final: Verdict, payout: nat, yes: nat, no: nat): nat {
    Liability(Some(final), payout, yes, no)
  }

  lemma LiabilityAdds(final: Option<Verdict>, payout: nat, a: nat, b: nat, c: nat, d: nat)
    ensures Liability(final, payout, a + c, b + d) == Liability(final, payout, a, b) + Liability(final, payout, c, d)
  {
    assert (a + c) * payout == a * payout + c * payout;
    assert (b + d) * payout == b * payout + d * payout;
    var half := payout / 2;
    assert (a + c + b + d) * half == (a + b) * half + (c + d) * half;
  }

  /** While supplies are equal, publishing any outcome leaves the reserve exactly sufficient. */
  lemma ResolutionChangesNothing(final: Verdict, payout: nat, supply: nat)
    requires payout % 2 == 0
    ensures Liability(Some(final), payout, supply, supply) == Liability(None, payout, supply, supply)
  {
    var half := payout / 2;
    assert payout == half * 2;
    assert (supply + supply) * half == supply * (half * 2);
  }

  /** What every trader numbered below n would be paid in total. */
  function TotalPayout(funds: Funds, final: Verdict, payout: nat, n: nat): nat {
    if n == 0 then 0
    else TotalPayout(funds, final, payout, n - 1)
         + PayoutOf(final, payout, Worth(funds, Claim(n - 1, Yes)), Worth(funds, Claim(n - 1, No)))
  }

  /** All claims together are the liability on the totals, so they can be paid in any order. */
  lemma {:induction false} TotalPayoutIsLiability(funds: Funds, final: Verdict, payout: nat, n: nat)
    ensures TotalPayout(funds, final, payout, n)
         == Liability(Some(final), payout, TotalWorth(funds, Some(Yes), n), TotalWorth(funds, Some(No), n))
  {
    if n == 0 {
      assert 0 * payout == 0;
    } else {
      TotalPayoutIsLiability(funds, final, payout, n - 1);
      LiabilityAdds(Some(final), payout, TotalWorth(funds, Some(Yes), n - 1), TotalWorth(funds, Some(No), n - 1),
                    Worth(funds, Claim(n - 1, Yes)), Worth(funds, Claim(n - 1, No)));
    }
  }

  lemma LiabilityMonotone(final: Option<Verdict>, payout: nat, a: nat, b: nat, c: nat, d: nat)
    requires a <= c && b <= d
    ensures Liability(final, payout, a, b) <= Liability(final, payout, c, d)
  {
    LiabilityAdds(final, payout, a, b, c - a, d - b);
  }

  /** Every claim is counted and covered: the reserve is the liability, and supplies are the sums of positions. */
  ghost predicate Solvent(funds: Funds, n: nat, payout: nat, yes: nat, no: nat, reserve: nat, status: MarketStatus, final: Option<Verdict>) {
    && payout > 0 && payout % 2 == 0
    && (forall p <- funds :: p.owner < n)
    && TotalWorth(funds, Some(Yes), n) == yes
    && TotalWorth(funds, Some(No), n) == no
    && reserve == Liability(final, payout, yes, no)
    && (status.Resolved? <==> final.Some?)
    && (!status.Resolved? ==> yes == no)
  }

  lemma {:induction false} WorthWithinTotal(funds: Funds, asset: Option<Outcome>, n: nat, x: Pubkey)
    requires x < n
    ensures Worth(funds, PurseOf(asset, x)) <= TotalWorth(funds, asset, n)
  {
    if x < n - 1 { WorthWithinTotal(funds, asset, n - 1, x); }
  }

  /** One owner's purse changes by a known amount; every total follows. */
  lemma {:induction false} TotalWorthMoves(a: Funds, b: Funds, asset: Option<Outcome>, n: nat, x: Pubkey)
    requires x < n
    requires forall w: nat | w != x :: Worth(a, PurseOf(asset, w)) == Worth(b, PurseOf(asset, w))
    ensures TotalWorth(b, asset, n) + Worth(a, PurseOf(asset, x)) == TotalWorth(a, asset, n) + Worth(b, PurseOf(asset, x))
  {
    if n - 1 == x {
      SameTotal(a, b, asset, n - 1, x);
    } else {
      TotalWorthMoves(a, b, asset, n - 1, x);
    }
  }

  lemma {:induction false} SameTotal(a: Funds, b: Funds, asset: Option<Outcome>, n: nat, x: Pubkey)
    requires n <= x
    requires forall w: nat | w != x :: Worth(a, PurseOf(asset, w)) == Worth(b, PurseOf(asset, w))
    ensures TotalWorth(a, asset, n) == TotalWorth(b, asset, n)
  {
    if n > 0 { SameTotal(a, b, asset, n - 1, x); }
  }

  // ------------------------------------------------------------- one owner's claims

  predicate HasWallet(funds: Funds, owner: Pubkey) {
    Cash(owner) in funds && Claim(owner, Yes) in funds && Claim(owner, No) in funds
  }

  /** The owner's free cash and contracts after adding and removing amounts. */
  function Moved(funds: Funds, owner: Pubkey, cash: int, yes: int, no: int): Funds
    requires HasWallet(funds, owner)
    requires 0 <= funds[Cash(owner)].free + cash <= U64_MAX
    requires 0 <= funds[Claim(owner, Yes)].free + yes <= U64_MAX && 0 <= funds[Claim(owner, No)].free + no <= U64_MAX
  {
    funds[Cash(owner) := Bucket(funds[Cash(owner)].free + cash, funds[Cash(owner)].locked)]
         [Claim(owner, Yes) := Bucket(funds[Claim(owner, Yes)].free + yes, funds[Claim(owner, Yes)].locked)]
         [Claim(owner, No) := Bucket(funds[Claim(owner, No)].free + no, funds[Claim(owner, No)].locked)]
  }

  /** Exactly the owner's free cash and contracts change, by these amounts. */
  ghost predicate WalletMoves(before: Funds, after: Funds, owner: Pubkey, cash: int, yes: int, no: int) {
    && Moves(before, after, Cash(owner), cash, 0)
    && Moves(before, after, Claim(owner, Yes), yes, 0)
    && Moves(before, after, Claim(owner, No), no, 0)
    && OthersKept(before, after, {Cash(owner), Claim(owner, Yes), Claim(owner, No)})
  }

  lemma MovedTotals(funds: Funds, owner: Pubkey, cash: int, yes: int, no: int, n: nat)
    requires HasWallet(funds, owner) && owner < n
    requires 0 <= funds[Cash(owner)].free + cash <= U64_MAX
    requires 0 <= funds[Claim(owner, Yes)].free + yes <= U64_MAX && 0 <= funds[Claim(owner, No)].free + no <= U64_MAX
    ensures var after := Moved(funds, owner, cash, yes, no);
      && after.Keys == funds.Keys
      && WalletMoves(funds, after, owner, cash, yes, no)
      && (forall p <- funds :: after[p].locked == funds[p].locked)
      && after[Cash(owner)].free == funds[Cash(owner)].free + cash
      && TotalWorth(after, None, n) == TotalWorth(funds, None, n) + cash
      && TotalWorth(after, Some(Yes), n) == TotalWorth(funds, Some(Yes), n) + yes
      && TotalWorth(after, Some(No), n) == TotalWorth(funds, Some(No), n) + no
  {
    var after := Moved(funds, owner, cash, yes, no);
    TotalWorthMoves(funds, after, None, n, owner);
    TotalWorthMoves(funds, after, Some(Yes), n, owner);
    TotalWorthMoves(funds, after, Some(No), n, owner);
  }

  /** Free balances are not part of any book invariant. */
  lemma FreeLeavesConsistent(h: Heap, v: View, funds: Funds, after: Funds, elsewhere: map<Purse, nat>)
    requires Consistent(h, v, funds, elsewhere) && after.Keys == funds.Keys
    requires forall p <- funds :: after[p].locked == funds[p].locked
    ensures Consistent(h, v, after, elsewhere)
  {
    hide WellFormed;
    forall p <- after ensures PurseBacks(h, after, elsewhere, p) {
      assert PurseBacks(h, funds, elsewhere, p);
    }
  }

  /** Free contracts never exceed the outstanding supply, nor their payout the reserve. */
  lemma ClaimsAreCovered(funds: Funds, n: nat, payout: nat, yes: nat, no: nat, reserve: nat, status: MarketStatus, final: Option<Verdict>,
                         owner: Pubkey, y: nat, z: nat)
    requires Solvent(funds, n, payout, yes, no, reserve, status, final) && HasWallet(funds, owner)
    requires y <= funds[Claim(owner, Yes)].free && z <= funds[Claim(owner, No)].free
    ensures owner < n && y <= yes && z <= no && Liability(final, payout, y, z) <= reserve
  {
    hide Liability;
    assert owner < n by { assert Cash(owner).owner < n; }
    WorthWithinTotal(funds, Some(Yes), n, owner);
    WorthWithinTotal(funds, Some(No), n, owner);
    LiabilityMonotone(final, payout, y, z, yes, no);
  }

  // ----------------------------------------------------------------- accepted requests

  /** `handle_split_prediction_complete_set` succeeds exactly here. */
  predicate SplitAccepted(funds: Funds, owner: Pubkey, quantity: u64, status: MarketStatus, beforeClose: bool, payout: u64, yes: u64, no: u64,
                          reserve: u64)
  {
    && status.Trading? && beforeClose && quantity > 0
    && HasWallet(funds, owner)
    && var cost := quantity * payout;
    && cost <= U64_MAX && cost <= funds[Cash(owner)].free
    && funds[Claim(owner, Yes)].free + quantity <= U64_MAX && funds[Claim(owner, No)].free + quantity <= U64_MAX
    && yes + quantity <= U64_MAX && no + quantity <= U64_MAX && reserve + cost <= U64_MAX
  }

  /** A merge needs only the owner's own free pairs and room for the refund: no backing check is needed. */
  predicate MergeAccepted(funds: Funds, owner: Pubkey, quantity: u64, status: MarketStatus, payout: u64) {
    && (status.Trading? || status.Frozen? || status.Proposed?) && quantity > 0
    && HasWallet(funds, owner)
    && quantity <= funds[Claim(owner, Yes)].free && quantity <= funds[Claim(owner, No)].free
    && funds[Cash(owner)].free + quantity * payout <= U64_MAX
  }

  /** A redemption needs only the owner's own free contracts of the resolved market, and room for what they pay. */
  predicate RedeemPossible(funds: Funds, owner: Pubkey, yes: u64, no: u64, final: Option<Verdict>, payout: u64) {
    && (yes > 0 || no > 0)
    && HasWallet(funds, owner)
    && yes <= funds[Claim(owner, Yes)].free && no <= funds[Claim(owner, No)].free
    && match final
       case None => false
       case Some(YesWins) => funds[Cash(owner)].free + yes * payout <= U64_MAX
       case Some(NoWins) => funds[Cash(owner)].free + no * payout <= U64_MAX
       case Some(Invalid) => funds[Cash(owner)].free + (yes + no) * (payout / 2) <= U64_MAX
  }

  /** What each verdict pays: its own side in full and the other nothing, or half to both. */
  lemma VerdictPays(payout: nat, yes: nat, no: nat)
    ensures PayoutOf(YesWins, payout, yes, no) == yes * payout
    ensures PayoutOf(NoWins, payout, yes, no) == no * payout
    ensures PayoutOf(Invalid, payout, yes, no) == (yes + no) * (payout / 2)
  {
  }

  /** `validatePredictionCompleteSet` for a merge, with its backing check; None stands for a thrown error. */
  function ClientMerge(funds: Funds, owner: Pubkey, quantity: int, status: MarketStatus, payout: u64, yes: u64, no: u64, reserve: u64): Option<nat>
    requires HasWallet(funds, owner)
  {
    if quantity <= 0 || quantity > U64_MAX || !(status.Trading? || status.Frozen? || status.Proposed?) then None
    else
      var collateral := quantity * payout;
      if collateral > U64_MAX || quantity > funds[Claim(owner, Yes)].free || quantity > funds[Claim(owner, No)].free then None
      else if quantity > yes || quantity > no || collateral > reserve then None
      else if funds[Cash(owner)].free + collateral > U64_MAX then None
      else Some(collateral)
  }

  /** The client's "Market backing cannot cover this merge" never fires: it accepts exactly what the program accepts. */
  lemma BackingCheckNeverFires(funds: Funds, n: nat, payout: u64, yes: u64, no: u64, reserve: u64, status: MarketStatus, final: Option<Verdict>,
                               owner: Pubkey, quantity: u64)
    requires Solvent(funds, n, payout, yes, no, reserve, status, final) && HasWallet(funds, owner)
    ensures ClientMerge(funds, owner, quantity, status, payout, yes, no, reserve)
         == if MergeAccepted(funds, owner, quantity, status, payout) then Some(quantity * payout) else None
  {
    if quantity <= funds[Claim(owner, Yes)].free && quantity <= funds[Claim(owner, No)].free {
      ClaimsAreCovered(funds, n, payout, yes, no, reserve, status, final, owner, quantity, quantity);
    }
  }

  // ---------------------------------------------------------------------- the market

  datatype Action =
    | Order(ix: Instruction, now: Time)
    | Split(owner: Pubkey, quantity: u64, now: Time)
    | Merge(owner: Pubkey, quantity: u64)
    | Redeem(owner: Pubkey, yes: u64, no: u64)
    | Resolve(move: Move, now: Time)

  /** The market between two actions. */
  datatype MarketScene = MarketScene(book: Scene, life: Life, yes: u64, no: u64, reserve: u64)

  /** Placing and matching need a trading market before its close; cancelling never does. */
  ghost predicate Ordered(terms: Terms, life: Life, ix: Instruction, now: Time, s: Scene, s': Scene, ok: bool) {
    if ix.Cancel? then Performed(ix, s, s', ok)
    else if life.status.Trading? && now < terms.close then Performed(ix.(open := true), s, s', ok)
    else !ok && s' == s
  }

  /** Cash became complete pairs and their backing. */
  ghost predicate Minted(s: MarketScene, s': MarketScene, owner: Pubkey, quantity: u64) {
    var payout := s.book.heap.root.payout;
    && s'.yes == s.yes + quantity && s'.no == s.no + quantity && s'.reserve == s.reserve + quantity * payout
    && WalletMoves(s.book.funds, s'.book.funds, owner, 0 - quantity * payout, quantity, quantity)
  }

  /** Complete pairs became their backing again. */
  ghost predicate Burned(s: MarketScene, s': MarketScene, owner: Pubkey, quantity: u64) {
    var payout := s.book.heap.root.payout;
    && s'.yes == s.yes - quantity && s'.no == s.no - quantity && s'.reserve == s.reserve - quantity * payout
    && WalletMoves(s.book.funds, s'.book.funds, owner, quantity * payout, 0 - quantity, 0 - quantity)
  }

  /** What a redemption is paid under the published verdict. */
  ghost predicate Redeemed(s: MarketScene, s': MarketScene, owner: Pubkey, yes: u64, no: u64) {
    var payout := s.book.heap.root.payout;
    && s'.yes == s.yes - yes && s'.no == s.no - no
    && (s.life.final == Some(YesWins) ==>
          WalletMoves(s.book.funds, s'.book.funds, owner, yes * payout, 0 - yes, 0 - no) && s'.reserve == s.reserve - yes * payout)
    && (s.life.final == Some(NoWins) ==>
          WalletMoves(s.book.funds, s'.book.funds, owner, no * payout, 0 - yes, 0 - no) && s'.reserve == s.reserve - no * payout)
    && (s.life.final == Some(Invalid) ==>
          && WalletMoves(s.book.funds, s'.book.funds, owner, (yes + no) * (payout / 2), 0 - yes, 0 - no)
          && s'.reserve == s.reserve - (yes + no) * (payout / 2))
  }

  /** This very action was carried out, or refused and nothing changed. */
  ghost predicate Enacted(terms: Terms, action: Action, s: MarketScene, s': MarketScene, ok: bool) {
    var funds, payout := s.book.funds, s.book.heap.root.payout;
    && (!ok ==> s' == s)
    && match action
       case Order(ix, now) =>
         && Ordered(terms, s.life, ix, now, s.book, s'.book, ok)
         && s'.life == s.life && s'.yes == s.yes && s'.no == s.no && s'.reserve == s.reserve
       case Split(owner, quantity, now) =>
         && (ok <==> SplitAccepted(funds, owner, quantity, s.life.status, now < terms.close, payout, s.yes, s.no, s.reserve))
         && (ok ==> Minted(s, s', owner, quantity))
         && s'.life == s.life && s'.book == s.book.(funds := s'.book.funds)
       case Merge(owner, quantity) =>
         && (ok <==> MergeAccepted(funds, owner, quantity, s.life.status, payout))
         && (ok ==> Burned(s, s', owner, quantity))
         && s'.life == s.life && s'.book == s.book.(funds := s'.book.funds)
       case Redeem(owner, yes, no) =>
         && (ok <==> RedeemPossible(funds, owner, yes, no, s.life.final, payout))
         && (ok ==> Redeemed(s, s', owner, yes, no))
         && s'.life == s.life && s'.book == s.book.(funds := s'.book.funds)
       case Resolve(m, now) =>
         && (ok <==> Take(terms, s.life, m, now).Some?)
         && s' == s.(life := if ok then Take(terms, s.life, m, now).value else s.life)
  }

  /** The first i actions, each carried out or refused on what the one before it left. */
  ghost predicate AllEnacted(terms: Terms, actions: seq<Action>, scenes: seq<MarketScene>, results: seq<bool>, i: nat) {
    && i <= |actions| && |results| == i && |scenes| == i + 1
    && forall j :: 0 <= j < i ==> Enacted(terms, actions[j], scenes[j], scenes[j + 1], results[j])
  }

  lemma EnactedStep(terms: Terms, actions: seq<Action>, scenes: seq<MarketScene>, results: seq<bool>, i: nat, s: MarketScene, ok: bool)
    requires AllEnacted(terms, actions, scenes, results, i) && i < |actions| && Enacted(terms, actions[i], scenes[i], s, ok)
    ensures AllEnacted(terms, actions, scenes + [s], results + [ok], i + 1)
    ensures |scenes + [s]| == i + 2 && (scenes + [s])[0] == scenes[0] && (scenes + [s])[i + 1] == s
  {
    hide Enacted;
  }

  class PredictionMarket {
    const book: Exchange
    const terms: Terms
    var life: Life
    var yesSupply: u64
    var noSupply: u64
    var reserve: u64
    /** A bound on every wallet number. */
    ghost var n: nat

    ghost predicate Valid()
      reads this, book
    {
      && book.Valid() && book.root.kind.PredictionKind?
      && OwnersBelow(book.orders, n)
      && Solvent(book.funds, n, book.root.payout, yesSupply, noSupply, reserve, life.status, life.final)
    }

    ghost function Now(): MarketScene
      reads this, book
    {
      MarketScene(book.Now(), life, yesSupply, noSupply, reserve)
    }

    /** Cash of all traders, accrued fees and the reserve: the collateral in custody. */
    ghost function Custody(): nat
      reads this, book
    {
      TotalWorth(book.funds, None, n) + book.root.fees + reserve
    }

    /** A draft market around a fresh book whose wallets hold only cash. */
    constructor (book: Exchange, terms: Terms, ghost n: nat)
      requires book.Valid() && book.root.kind.PredictionKind? && OwnersBelow(book.orders, n)
      requires book.root.payout > 0 && book.root.payout % 2 == 0
      requires forall p <- book.funds :: p.owner < n
      requires TotalWorth(book.funds, Some(Yes), n) == 0 && TotalWorth(book.funds, Some(No), n) == 0
      ensures Valid() && this.book == book && this.terms == terms && life == NewDraft && reserve == 0 && this.n == n
    {
      this.book := book;
      this.terms, life := terms, NewDraft;
      yesSupply, noSupply, reserve := 0, 0, 0;
      this.n := n;
    }

    /** `handle_split_prediction_complete_set`. */
    method SplitSet(owner: Pubkey, quantity: u64, now: Time) returns (ok: bool)
      requires Valid()
      modifies this, book
      ensures Valid() && n == old(n) && Custody() == old(Custody())
      ensures ok <==> old(SplitAccepted(book.funds, owner, quantity, life.status, now < terms.close, book.root.payout, yesSupply, noSupply, reserve))
      ensures book.H() == old(book.H()) && book.view == old(book.view) && life == old(life)
      ensures !ok ==> Now() == old(Now())
      ensures ok ==> Minted(old(Now()), Now(), owner, quantity)
    {
      hide Consistent, Solvent, Liability, Moved, TotalWorth, WalletMoves;
      if !life.status.Trading? || now >= terms.close || quantity == 0 || !HasWallet(book.funds, owner) { return false; }
      var cost := quantity * book.root.payout;
      if cost > U64_MAX || cost > book.funds[Cash(owner)].free { return false; }
      if book.funds[Claim(owner, Yes)].free + quantity > U64_MAX || book.funds[Claim(owner, No)].free + quantity > U64_MAX { return false; }
      if yesSupply + quantity > U64_MAX || noSupply + quantity > U64_MAX || reserve + cost > U64_MAX { return false; }
      ghost var before := book.funds;
      PairLiability(life.final, book.root.payout, quantity, life.status, book.funds, n, yesSupply, noSupply, reserve);
      WalletBelow(book.funds, n, book.root.payout, yesSupply, noSupply, reserve, life.status, life.final, owner);
      MovedTotals(book.funds, owner, -(cost as int), quantity, quantity, n);
      book.funds := Moved(book.funds, owner, -(cost as int), quantity, quantity);
      FreeLeavesConsistent(book.H(), book.view, before, book.funds, book.elsewhere);
      SupplyGrows(before, book.funds, n, book.root.payout, yesSupply, noSupply, reserve, life.status, life.final, quantity, quantity);
      yesSupply, noSupply, reserve := yesSupply + quantity, noSupply + quantity, reserve + cost;
      ok := true;
    }

    /** `handle_merge_prediction_complete_set`. */
    method MergeSet(owner: Pubkey, quantity: u64) returns (ok: bool)
      requires Valid()
      modifies this, book
      ensures Valid() && n == old(n) && Custody() == old(Custody())
      ensures ok <==> old(MergeAccepted(book.funds, owner, quantity, life.status, book.root.payout))
      ensures book.H() == old(book.H()) && book.view == old(book.view) && life == old(life)
      ensures !ok ==> Now() == old(Now())
      ensures ok ==> Burned(old(Now()), Now(), owner, quantity)
    {
      hide Consistent, Solvent, Liability, Moved, TotalWorth, WalletMoves;
      ghost var before := book.funds;
      if quantity == 0 || !(life.status.Trading? || life.status.Frozen? || life.status.Proposed?) || !HasWallet(book.funds, owner) { return false; }
      var refund := quantity * book.root.payout;
      var cash, y, z := book.funds[Cash(owner)], book.funds[Claim(owner, Yes)], book.funds[Claim(owner, No)];
      if quantity > y.free || quantity > z.free { return false; }
      ClaimsAreCovered(book.funds, n, book.root.payout, yesSupply, noSupply, reserve, life.status, life.final, owner, quantity, quantity);
      PairLiability(life.final, book.root.payout, quantity, life.status, book.funds, n, yesSupply, noSupply, reserve);
      if refund > U64_MAX || cash.free + refund > U64_MAX || quantity > yesSupply || quantity > noSupply || refund > reserve { return false; }
      MovedTotals(book.funds, owner, refund, -(quantity as int), -(quantity as int), n);
      book.funds := Moved(book.funds, owner, refund, -(quantity as int), -(quantity as int));
      FreeLeavesConsistent(book.H(), book.view, before, book.funds, book.elsewhere);
      SupplyShrinks(before, book.funds, n, book.root.payout, yesSupply, noSupply, reserve, life.status, life.final, quantity, quantity);
      yesSupply, noSupply, reserve := yesSupply - quantity, noSupply - quantity, reserve - refund;
      ok := true;
    }

    /** `handle_redeem_prediction`. */
    method RedeemClaims(owner: Pubkey, yes: u64, no: u64) returns (ok: bool)
      requires Valid()
      modifies this, book
      ensures Valid() && n == old(n) && Custody() == old(Custody())
      ensures ok <==> old(RedeemPossible(book.funds, owner, yes, no, life.final, book.root.payout))
      ensures book.H() == old(book.H()) && book.view == old(book.view) && life == old(life)
      ensures !ok ==> Now() == old(Now())
      ensures ok ==> Redeemed(old(Now()), Now(), owner, yes, no)
    {
      hide Consistent, Solvent, Liability, Moved, TotalWorth, WalletMoves;
      ghost var before := book.funds;
      VerdictPays(book.root.payout, yes, no);
      if (yes == 0 && no == 0) || life.final.None? || !HasWallet(book.funds, owner) { return false; }
      ResolvedStatus(book.funds, n, book.root.payout, yesSupply, noSupply, reserve, life.status, life.final);
      var amount := PayoutOf(life.final.value, book.root.payout, yes, no);
      var cash, y, z := book.funds[Cash(owner)], book.funds[Claim(owner, Yes)], book.funds[Claim(owner, No)];
      if yes > y.free || no > z.free { return false; }
      ClaimsAreCovered(book.funds, n, book.root.payout, yesSupply, noSupply, reserve, life.status, life.final, owner, yes, no);
      if amount > U64_MAX || cash.free + amount > U64_MAX || yes > yesSupply || no > noSupply || amount > reserve { return false; }
      MovedTotals(book.funds, owner, amount, -(yes as int), -(no as int), n);
      book.funds := Moved(book.funds, owner, amount, -(yes as int), -(no as int));
      FreeLeavesConsistent(book.H(), book.view, before, book.funds, book.elsewhere);
      SupplyShrinks(before, book.funds, n, book.root.payout, yesSupply, noSupply, reserve, life.status, life.final, yes, no);
      yesSupply, noSupply, reserve := yesSupply - yes, noSupply - no, reserve - amount;
      ok := true;
    }

    /**
     * The lifecycle instructions: exactly the accepted moves, and no funds. Whatever verdict becomes final, the reserve
     * is again exactly the liability.
     */
    method Advance(m: Move, now: Time) returns (ok: bool)
      requires Valid()
      modifies this`life
      ensures Valid() && Custody() == old(Custody())
      ensures ok <==> old(Take(terms, life, m, now)).Some?
      ensures life == if ok then old(Take(terms, life, m, now)).value else old(life)
    {
      hide Consistent;
      if book.root.payout % 2 == 0 {
        ResolutionChangesNothing(YesWins, book.root.payout, yesSupply);
        ResolutionChangesNothing(NoWins, book.root.payout, yesSupply);
        ResolutionChangesNothing(Invalid, book.root.payout, yesSupply);
      }
      MoveResolves(terms, life, m, now);
      var next := Take(terms, life, m, now);
      if next.None? { return false; }
      hide Take;
      life := next.value;
      ok := true;
    }

    /** An instruction on the market's book: placing and matching need an open market, cancelling never does. */
    method Trade(ix: Instruction, now: Time) returns (ok: bool)
      requires Valid()
      modifies this, book
      ensures Valid() && n == old(n) && Custody() == old(Custody())
      ensures reserve == old(reserve) && yesSupply == old(yesSupply) && noSupply == old(noSupply) && life == old(life)
      ensures Ordered(terms, old(life), ix, now, old(book.Now()), book.Now(), ok)
      ensures !ok ==> Now() == old(Now())
    {
      hide Consistent, Solvent;
      if Cash(ix.trader) !in book.funds {
        NoAccountNoTrade(ix, book.Now());
        return false;
      }
      WalletBelow(book.funds, n, book.root.payout, yesSupply, noSupply, reserve, life.status, life.final, ix.trader);
      ghost var before := book.funds;
      hide Performed;
      var gated := if ix.Cancel? then ix else ix.(open := life.status.Trading? && now < terms.close);
      ClosedRefuses(gated, book.Now());
      ok := book.Execute(gated, n);
      TradeKeepsSolvent(before, book.funds, n, book.root.payout, yesSupply, noSupply, reserve, life.status, life.final);
    }

    method Execute(action: Action) returns (ok: bool)
      requires Valid()
      modifies this, book
      ensures Valid() && n == old(n) && Custody() == old(Custody())
      ensures Enacted(terms, action, old(Now()), Now(), ok)
    {
      hide Valid, Custody, Performed, Take, SplitAccepted, MergeAccepted, RedeemPossible, Minted, Burned, Redeemed, Ordered;
      match action {
        case Order(ix, now) => ok := Trade(ix, now);
        case Split(owner, quantity, now) => ok := SplitSet(owner, quantity, now);
        case Merge(owner, quantity) => ok := MergeSet(owner, quantity);
        case Redeem(owner, yes, no) => ok := RedeemClaims(owner, yes, no);
        case Resolve(m, now) => ok := Advance(m, now);
      }
    }

    /**
     * Any run of orders, splits, merges, resolution steps and redemptions keeps the market solvent: supplies are the
     * sums of positions, the reserve is exactly the liability, and collateral in custody is constant. Each action is
     * carried out or refused in turn, on what the ones before it left.
     */
    method Run(actions: seq<Action>) returns (results: seq<bool>, ghost scenes: seq<MarketScene>)
      requires Valid()
      modifies this, book
      ensures Valid() && n == old(n) && Custody() == old(Custody())
      ensures AllEnacted(terms, actions, scenes, results, |actions|)
      ensures |scenes| == |actions| + 1 && scenes[0] == old(Now()) && scenes[|actions|] == Now()
    {
      hide Valid, Custody, Enacted, AllEnacted;
      results, scenes := [], [Now()];
      NothingEnacted(terms, actions, Now());
      for i := 0 to |actions|
        invariant Valid() && n == old(n) && Custody() == old(Custody())
        invariant AllEnacted(terms, actions, scenes, results, i) && |scenes| == i + 1 && scenes[0] == old(Now()) && scenes[i] == Now()
      {
        var ok := Execute(actions[i]);
        EnactedStep(terms, actions, scenes, results, i, Now(), ok);
        results, scenes := results + [ok], scenes + [Now()];
      }
    }

    /** After resolution what all traders can still redeem is exactly the reserve, whatever was redeemed before. */
    lemma ReservePaysEveryClaim()
      requires Valid() && life.final.Some?
      ensures TotalPayout(book.funds, life.final.value, book.root.payout, n) == reserve
    {
      TotalPayoutIsLiability(book.funds, life.final.value, book.root.payout, n);
    }
  }

  /** The moves that publish a verdict are the ones that end in Resolved. */
  lemma MoveResolves(terms: Terms, life: Life, m: Move, now: Time)
    requires life.final.Some? <==> life.status.Resolved?
    ensures var next := Take(terms, life, m, now);
      next.Some? ==>
        && life.final.None? && (next.value.final.Some? <==> next.value.status.Resolved?)
  {
  }

  /** Without a cash account nothing can be placed, cancelled or matched. */
  lemma NoAccountNoTrade(ix: Instruction, s: Scene)
    requires Cash(ix.trader) !in s.funds
    ensures Performed(ix, s, s, false) && (!ix.Cancel? ==> Performed(ix.(open := true), s, s, false))
  {
  }

  lemma ClosedRefuses(ix: Instruction, s: Scene)
    ensures !ix.Cancel? && !ix.open ==> forall s', ok :: Performed(ix, s, s', ok) ==> !ok && s' == s
  {
  }

  lemma NothingEnacted(terms: Terms, actions: seq<Action>, s: MarketScene)
    ensures AllEnacted(terms, actions, [s], [], 0)
  {
  }

  lemma WalletBelow(funds: Funds, n: nat, payout: nat, yes: nat, no: nat, reserve: nat, status: MarketStatus, final: Option<Verdict>, owner: Pubkey)
    requires Solvent(funds, n, payout, yes, no, reserve, status, final) && Cash(owner) in funds
    ensures owner < n
  {
    assert Cash(owner).owner < n;
  }

  lemma ResolvedStatus(funds: Funds, n: nat, payout: nat, yes: nat, no: nat, reserve: nat, status: MarketStatus, final: Option<Verdict>)
    requires Solvent(funds, n, payout, yes, no, reserve, status, final)
    ensures final.Some? <==> status.Resolved?
    ensures payout > 0
  {
  }

  lemma PairLiability(final: Option<Verdict>, payout: nat, quantity: nat, status: MarketStatus, funds: Funds, n: nat, yes: nat, no: nat, reserve: nat)
    requires Solvent(funds, n, payout, yes, no, reserve, status, final) && !status.Resolved?
    ensures Liability(final, payout, quantity, quantity) == quantity * payout
  {
  }

  /** Supplies and reserve grow with the positions, and shrink with them. */
  lemma SupplyGrows(funds: Funds, after: Funds, n: nat, payout: nat, yes: nat, no: nat, reserve: nat, status: MarketStatus, final: Option<Verdict>,
                    y: nat, z: nat)
    requires Solvent(funds, n, payout, yes, no, reserve, status, final) && after.Keys == funds.Keys
    requires TotalWorth(after, Some(Yes), n) == TotalWorth(funds, Some(Yes), n) + y
    requires TotalWorth(after, Some(No), n) == TotalWorth(funds, Some(No), n) + z
    requires !status.Resolved? ==> y == z
    ensures Solvent(after, n, payout, yes + y, no + z, reserve + Liability(final, payout, y, z), status, final)
  {
    hide Liability;
    LiabilityAdds(final, payout, yes, no, y, z);
  }

  lemma SupplyShrinks(funds: Funds, after: Funds, n: nat, payout: nat, yes: nat, no: nat, reserve: nat, status: MarketStatus, final: Option<Verdict>,
                      y: nat, z: nat)
    requires Solvent(funds, n, payout, yes, no, reserve, status, final) && after.Keys == funds.Keys
    requires TotalWorth(after, Some(Yes), n) + y == TotalWorth(funds, Some(Yes), n)
    requires TotalWorth(after, Some(No), n) + z == TotalWorth(funds, Some(No), n)
    requires !status.Resolved? ==> y == z
    ensures y <= yes && z <= no && Liability(final, payout, y, z) <= reserve
    ensures Solvent(after, n, payout, yes - y, no - z, reserve - Liability(final, payout, y, z), status, final)
  {
    hide Liability;
    LiabilityAdds(final, payout, yes - y, no - z, y, z);
  }

  lemma TradeKeepsSolvent(funds: Funds, after: Funds, n: nat, payout: nat, yes: nat, no: nat, reserve: nat, status: MarketStatus, final: Option<Verdict>)
    requires Solvent(funds, n, payout, yes, no, reserve, status, final) && after.Keys == funds.Keys
    requires forall o :: TotalWorth(after, Some(o), n) == TotalWorth(funds, Some(o), n)
    ensures Solvent(after, n, payout, yes, no, reserve, status, final)
  {
  }
}
