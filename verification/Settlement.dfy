/** Settlement arithmetic: floor-rounded notional, ceiling-rounded fees, bid rounding dust. */
module Settlement {
  import opened Base

  datatype Side = Bid | Ask

  function Opposite(side: Side): Side {
    if side.Bid? then Ask else Bid
  }

  function Pow10(n: nat): (p: nat)
    ensures p > 0
  {
    if n == 0 then 1 else 10 * Pow10(n - 1)
  }

  /** The largest decimal count whose scale fits the u128 intermediate. */
  const MAX_SCALE_DECIMALS: nat := 38

  function FloorDiv(n: nat, s: nat): (q: nat)
    requires s > 0
    ensures q * s <= n < q * s + s
  {
    n / s
  }

  /** floor(price * quantity / 10^decimals), before any range check. */
  function Notional(decimals: nat, price: nat, quantity: nat): nat {
    FloorDiv(price * quantity, Pow10(decimals))
  }

  /** quote_amount: None stands for OrderNotionalOverflow. The u128 product of two u64 never overflows. */
  function QuoteAmount(decimals: nat, price: nat, quantity: nat): Option<u64> {
    if decimals > MAX_SCALE_DECIMALS then None
    else if Notional(decimals, price, quantity) > U64_MAX then None
    else Some(Notional(decimals, price, quantity))
  }

  function PricesCross(takerSide: Side, limit: nat, makerPrice: nat): bool {
    match takerSide
    case Bid => limit >= makerPrice
    case Ask => limit <= makerPrice
  }

  datatype Error =
    | InvalidQuantity
    | OrderNotionalOverflow
    | OrderNotionalTooSmall
    | MatchingSameSide
    | OrdersDoNotCross
    | InvalidMakerCollateral

  datatype Result<+T> = Ok(value: T) | Err(error: Error)

  datatype Fill = Fill(base: nat, quote: nat, price: nat)

  datatype Plan = Plan(fill: Fill, debit: nat, refund: nat, makerFull: bool, takerFull: bool)

  function CalculateFill(price: u64, takerRemaining: u64, makerRemaining: u64, decimals: nat): Result<Fill> {
    var base := Min(takerRemaining, makerRemaining);
    if base == 0 then Err(InvalidQuantity)
    else if decimals > MAX_SCALE_DECIMALS then Err(OrderNotionalOverflow)
    else if Notional(decimals, price, base) == 0 then Err(OrderNotionalTooSmall)
    else if Notional(decimals, price, base) > U64_MAX then Err(OrderNotionalOverflow)
    else Ok(Fill(base, Notional(decimals, price, base), price))
  }

  function CalculateSettlement(takerSide: Side, limit: u64, takerRemaining: u64, makerSide: Side, price: u64,
                               makerRemaining: u64, locked: u64, decimals: nat): Result<Plan>
  {
    if takerSide == makerSide then Err(MatchingSameSide)
    else if !PricesCross(takerSide, limit, price) then Err(OrdersDoNotCross)
    else
      match CalculateFill(price, takerRemaining, makerRemaining, decimals)
      case Err(e) => Err(e)
      case Ok(fill) =>
        var makerFull := fill.base == makerRemaining;
        var takerFull := fill.base == takerRemaining;
        match makerSide
        case Ask =>
          if locked != makerRemaining then Err(InvalidMakerCollateral)
          else Ok(Plan(fill, fill.base, 0, makerFull, takerFull))
        case Bid =>
          var debit := if makerFull then locked else fill.quote;
          if debit >= fill.quote && locked >= debit
          then Ok(Plan(fill, debit, debit - fill.quote, makerFull, takerFull))
          else Err(InvalidMakerCollateral)
  }

  /** The lock a resting order must carry for its remaining quantity; a bid may carry rounding dust on top. */
  ghost predicate Backed(side: Side, decimals: nat, price: nat, remaining: nat, locked: nat) {
    if side.Ask? then locked == remaining
    else
      && decimals <= MAX_SCALE_DECIMALS
      && Notional(decimals, price, remaining) <= locked
      && (decimals == 0 ==> locked == price * remaining)
  }

  // ---------------------------------------------------------------- rounding

  lemma MulMonotone(a: nat, b: nat, c: nat)
    requires a <= b
    ensures a * c <= b * c
  {
    assert b * c == a * c + (b - a) * c;
  }

  lemma FloorUnique(n: nat, s: nat, q: nat)
    requires s > 0 && q * s <= n < q * s + s
    ensures FloorDiv(n, s) == q
  {
    var p := FloorDiv(n, s);
    if p < q {
      MulMonotone(p + 1, q, s);
    } else if q < p {
      MulMonotone(q + 1, p, s);
    }
  }

  lemma FloorOfSum(x: nat, y: nat, s: nat)
    requires s > 0
    ensures FloorDiv(x, s) + FloorDiv(y, s) <= FloorDiv(x + y, s) <= FloorDiv(x, s) + FloorDiv(y, s) + 1
  {
    var q := FloorDiv(x, s) + FloorDiv(y, s);
    assert q * s == FloorDiv(x, s) * s + FloorDiv(y, s) * s;
    assert (q + 1) * s == q * s + s;
    FloorUnique(x + y, s, if x + y < q * s + s then q else q + 1);
  }

  lemma NotionalSplit(decimals: nat, price: nat, a: nat, b: nat)
    ensures Notional(decimals, price, a) + Notional(decimals, price, b) <= Notional(decimals, price, a + b)
    ensures Notional(decimals, price, a + b) <= Notional(decimals, price, a) + Notional(decimals, price, b) + 1
  {
    assert price * (a + b) == price * a + price * b;
    FloorOfSum(price * a, price * b, Pow10(decimals));
  }

  lemma NotionalMonotone(decimals: nat, price: nat, a: nat, b: nat)
    requires a <= b
    ensures Notional(decimals, price, a) <= Notional(decimals, price, b)
  {
    NotionalSplit(decimals, price, a, b - a);
  }

  lemma NotionalWhole(price: nat, quantity: nat)
    ensures Notional(0, price, quantity) == price * quantity
  {
    FloorUnique(price * quantity, 1, price * quantity);
  }

  // ------------------------------------------------------- one settlement step

  /**
   * Against a backed maker the collateral check never fires, and settlement succeeds exactly when the
   * prices cross from opposite sides and the fill is worth at least one quote atom that fits u64.
   */
  lemma SettlementSucceedsExactly(takerSide: Side, limit: u64, takerRemaining: u64, makerSide: Side, price: u64,
                                  makerRemaining: u64, locked: u64, decimals: nat)
    requires Backed(makerSide, decimals, price, makerRemaining, locked)
    ensures var r := CalculateSettlement(takerSide, limit, takerRemaining, makerSide, price, makerRemaining, locked, decimals);
      var base := Min(takerRemaining, makerRemaining);
      && r != Err(InvalidMakerCollateral)
      && (r.Ok? <==>
            && takerSide != makerSide
            && PricesCross(takerSide, limit, price)
            && decimals <= MAX_SCALE_DECIMALS
            && 0 < Notional(decimals, price, base) <= U64_MAX)
  {
    var base := Min(takerRemaining, makerRemaining);
    NotionalMonotone(decimals, price, base, makerRemaining);
    if base == 0 { NotionalOfZero(decimals, price); }
  }

  lemma NotionalOfZero(decimals: nat, price: nat)
    ensures Notional(decimals, price, 0) == 0
  {
    FloorUnique(price * 0, Pow10(decimals), 0);
  }

  /** A fill debits the lock, leaves the remainder backed, and splits the debit into payment and refund. */
  lemma SettlementKeepsBacking(takerSide: Side, limit: u64, takerRemaining: u64, makerSide: Side, price: u64,
                               makerRemaining: u64, locked: u64, decimals: nat)
    requires Backed(makerSide, decimals, price, makerRemaining, locked)
    requires CalculateSettlement(takerSide, limit, takerRemaining, makerSide, price, makerRemaining, locked, decimals).Ok?
    ensures var plan :=
        CalculateSettlement(takerSide, limit, takerRemaining, makerSide, price, makerRemaining, locked, decimals).value;
      && plan.fill.base == Min(takerRemaining, makerRemaining) > 0
      && plan.fill.quote == Notional(decimals, price, plan.fill.base) > 0
      && plan.debit <= locked
      && plan.makerFull == (plan.fill.base == makerRemaining)
      && (plan.makerFull ==> plan.debit == locked)
      && Backed(makerSide, decimals, price, makerRemaining - plan.fill.base, locked - plan.debit)
      && plan.debit == (if makerSide.Bid? then plan.fill.quote + plan.refund else plan.fill.base)
      && (plan.refund > 0 ==> makerSide.Bid? && plan.makerFull && decimals > 0)
  {
    hide Notional, PricesCross;
    var base := Min(takerRemaining, makerRemaining);
    NotionalMonotone(decimals, price, base, makerRemaining);
    NotionalSplit(decimals, price, base, makerRemaining - base);
    NotionalOfZero(decimals, price);
    if decimals == 0 {
      NotionalWhole(price, base);
      NotionalWhole(price, makerRemaining);
      NotionalWhole(price, makerRemaining - base);
      WholeSplit(price, base, makerRemaining - base);
    }
  }

  lemma WholeSplit(price: nat, a: nat, b: nat)
    ensures price * (a + b) == price * a + price * b
  {
  }

  // --------------------------------------------------- any sequence of fills

  /** A resting bid and everything its owner has paid or been refunded so far. */
  datatype BidLife = BidLife(remaining: u64, locked: u64, paid: nat, refunded: nat)

  /** One taker sell of `taker` base units against the bid; None when settlement rejects it. */
  function FillBid(bid: BidLife, price: u64, taker: u64, decimals: nat): Option<BidLife> {
    match CalculateSettlement(Ask, price, taker, Bid, price, bid.remaining, bid.locked, decimals)
    case Err(_) => None
    case Ok(p) =>
      if p.fill.base <= bid.remaining && p.debit <= bid.locked
      then Some(BidLife(bid.remaining - p.fill.base, bid.locked - p.debit, bid.paid + p.fill.quote, bid.refunded + p.refund))
      else None
  }

  /** Applies takers in order; a rejected instruction rolls back and leaves the bid unchanged. */
  function FillBidAll(bid: BidLife, price: u64, takers: seq<u64>, decimals: nat): BidLife
    decreases |takers|
  {
    if takers == [] then bid
    else
      var next := FillBid(bid, price, takers[0], decimals);
      FillBidAll(if next.Some? then next.value else bid, price, takers[1..], decimals)
  }

  function AcceptedFills(bid: BidLife, price: u64, takers: seq<u64>, decimals: nat): nat
    decreases |takers|
  {
    if takers == [] then 0
    else
      var next := FillBid(bid, price, takers[0], decimals);
      if next.Some? then 1 + AcceptedFills(next.value, price, takers[1..], decimals)
      else AcceptedFills(bid, price, takers[1..], decimals)
  }

  /** What a bid of `quantity` locks, split between lock, payments and refund, with `n` fills accepted. */
  ghost predicate BidAccounted(bid: BidLife, price: u64, quantity: u64, decimals: nat, n: nat) {
    && bid.remaining <= quantity
    && Backed(Bid, decimals, price, bid.remaining, bid.locked)
    && bid.paid + bid.refunded + bid.locked == Notional(decimals, price, quantity)
    && (bid.remaining > 0 ==>
          && bid.refunded == 0
          && bid.locked <= Notional(decimals, price, bid.remaining) + n)
    && (bid.remaining == 0 ==>
          && bid.locked == 0
          && bid.refunded <= (if n == 0 then 0 else n - 1))
  }

  lemma FillBidStep(bid: BidLife, price: u64, quantity: u64, taker: u64, decimals: nat, n: nat)
    requires BidAccounted(bid, price, quantity, decimals, n)
    requires FillBid(bid, price, taker, decimals).Some?
    ensures BidAccounted(FillBid(bid, price, taker, decimals).value, price, quantity, decimals, n + 1)
    ensures FillBid(bid, price, taker, decimals).value.remaining < bid.remaining
  {
    SettlementKeepsBacking(Ask, price, taker, Bid, price, bid.remaining, bid.locked, decimals);
    var base := Min(taker, bid.remaining);
    NotionalSplit(decimals, price, base, bid.remaining - base);
    NotionalOfZero(decimals, price);
  }

  /**
   * Whatever takers arrive, in whatever sizes: the lock keeps backing the remainder, InvalidMakerCollateral never
   * occurs, nothing is lost between lock, payments and refund, and the final refund is at most one atom less than
   * the number of accepted fills.
   */
  lemma {:induction false} BidSurvivesAnyFills(bid: BidLife, price: u64, quantity: u64, takers: seq<u64>, decimals: nat, n: nat)
    requires BidAccounted(bid, price, quantity, decimals, n)
    ensures BidAccounted(FillBidAll(bid, price, takers, decimals), price, quantity, decimals,
                         n + AcceptedFills(bid, price, takers, decimals))
    decreases |takers|
  {
    if takers != [] {
      var next := FillBid(bid, price, takers[0], decimals);
      if next.Some? {
        FillBidStep(bid, price, quantity, takers[0], decimals, n);
        BidSurvivesAnyFills(next.value, price, quantity, takers[1..], decimals, n + 1);
      } else {
        BidSurvivesAnyFills(bid, price, quantity, takers[1..], decimals, n);
      }
    }
  }

  lemma FreshBidAccounted(price: u64, quantity: u64, decimals: nat)
    requires quantity > 0 && QuoteAmount(decimals, price, quantity).Some?
    ensures BidAccounted(BidLife(quantity, QuoteAmount(decimals, price, quantity).value, 0, 0), price, quantity, decimals, 0)
  {
    NotionalWhole(price, quantity);
  }

  /** The same, for a freshly placed bid. */
  lemma FreshBidSettlesExactly(price: u64, quantity: u64, takers: seq<u64>, decimals: nat)
    requires quantity > 0 && QuoteAmount(decimals, price, quantity).Some?
    ensures var original := QuoteAmount(decimals, price, quantity).value;
      var bid := FillBidAll(BidLife(quantity, original, 0, 0), price, takers, decimals);
      var n := AcceptedFills(BidLife(quantity, original, 0, 0), price, takers, decimals);
      && Notional(decimals, price, bid.remaining) <= bid.locked
      && bid.paid + bid.refunded + bid.locked == original
      && (bid.remaining == 0 ==> n >= 1 && bid.paid + bid.refunded == original && bid.refunded <= n - 1)
  {
    var bid := BidLife(quantity, QuoteAmount(decimals, price, quantity).value, 0, 0);
    FreshBidAccounted(price, quantity, decimals);
    BidSurvivesAnyFills(bid, price, quantity, takers, decimals, 0);
    if AcceptedFills(bid, price, takers, decimals) == 0 {
      NoFillsNoChange(bid, price, takers, decimals);
    }
  }

  lemma {:induction false} NoFillsNoChange(bid: BidLife, price: u64, takers: seq<u64>, decimals: nat)
    requires AcceptedFills(bid, price, takers, decimals) == 0
    ensures FillBidAll(bid, price, takers, decimals) == bid
    decreases |takers|
  {
    if takers != [] {
      NoFillsNoChange(bid, price, takers[1..], decimals);
    }
  }

  // -------------------------------------------------------- the zero-lock remainder

  /**
   * `order()` demands a positive lock. A partial fill of a backed bid keeps it positive exactly when the fill's
   * own quote is below the current lock; a whole-contract book (decimals 0) always meets that.
   */
  lemma PartialFillKeepsLockPositive(price: u64, taker: u64, bid: BidLife, decimals: nat)
    requires Backed(Bid, decimals, price, bid.remaining, bid.locked)
    requires price > 0 && taker < bid.remaining
    requires FillBid(bid, price, taker, decimals).Some?
    ensures FillBid(bid, price, taker, decimals).value.locked > 0 <==> Notional(decimals, price, taker) < bid.locked
    ensures decimals == 0 ==> Notional(decimals, price, taker) < bid.locked
  {
    SettlementKeepsBacking(Ask, price, taker, Bid, price, bid.remaining, bid.locked, decimals);
    if decimals == 0 {
      NotionalWhole(price, taker);
      var left := bid.remaining - taker;
      assert price * bid.remaining == price * taker + price * left;
      assert price * left >= 1 by { assert price >= 1 && left >= 1; MulPositive(price, left); }
    }
  }

  lemma MulPositive(a: nat, b: nat)
    requires a > 0 && b > 0
    ensures a * b > 0
  {
  }

  /**
   * The family is inhabited: at one base decimal a bid of 3 at price 5 locks 1; a fill of 2 takes the whole lock and
   * leaves one unit with none, which no taker can fill.
   */
  lemma ZeroLockRemainderExists(decimals: nat, price: u64)
    requires decimals == 1 && price == 5
    ensures QuoteAmount(decimals, price, 3) == Some(1)
    ensures FillBid(BidLife(3, 1, 0, 0), price, 2, decimals) == Some(BidLife(1, 0, 1, 0))
    ensures FillBid(BidLife(1, 0, 1, 0), price, 1, decimals) == None
  {
    NotionalAtTenth();
    PartialFillTakes(BidLife(3, 1, 0, 0), price, 2, decimals);
    WorthlessFillFails(BidLife(1, 0, 1, 0), price, 1, decimals);
  }

  lemma PartialFillTakes(bid: BidLife, price: u64, taker: u64, decimals: nat)
    requires 0 < taker < bid.remaining && decimals <= MAX_SCALE_DECIMALS
    requires 0 < Notional(decimals, price, taker) <= bid.locked
    ensures var q := Notional(decimals, price, taker);
      FillBid(bid, price, taker, decimals) == Some(BidLife(bid.remaining - taker, bid.locked - q, bid.paid + q, bid.refunded))
  {
  }

  lemma WorthlessFillFails(bid: BidLife, price: u64, taker: u64, decimals: nat)
    requires taker <= bid.remaining
    requires Notional(decimals, price, taker) == 0
    ensures FillBid(bid, price, taker, decimals) == None
  {
  }

  lemma NotionalAtTenth()
    ensures Notional(1, 5, 3) == 1 && Notional(1, 5, 2) == 1 && Notional(1, 5, 1) == 0
  {
    assert Pow10(1) == 10;
    FloorUnique(15, 10, 1);
    FloorUnique(10, 10, 1);
    FloorUnique(5, 10, 0);
  }

  // ------------------------------------------------------------------- fees

  const BASIS_POINTS_DENOMINATOR: nat := 10_000
  const MAX_TAKER_FEE_BPS: nat := 1_000

  /** calculate_taker_fee: None stands for FeeRateTooHigh or FeeCalculationOverflow. */
  function CalculateTakerFee(quote: u64, bps: nat): Option<u64> {
    if bps > MAX_TAKER_FEE_BPS then None
    else if quote == 0 || bps == 0 then Some(0)
    else
      var fee := (quote * bps + (BASIS_POINTS_DENOMINATOR - 1)) / BASIS_POINTS_DENOMINATOR;
      if fee <= U64_MAX then Some(fee) else None
  }

  /** The fee is the least integer at or above the exact rate, never exceeds the notional, and never overflows. */
  lemma FeeIsCeiling(quote: u64, bps: nat)
    ensures CalculateTakerFee(quote, bps).Some? <==> bps <= MAX_TAKER_FEE_BPS
    ensures bps <= MAX_TAKER_FEE_BPS ==>
      var fee := CalculateTakerFee(quote, bps).value;
      && quote * bps <= fee * BASIS_POINTS_DENOMINATOR < quote * bps + BASIS_POINTS_DENOMINATOR
      && fee <= quote
      && (fee == 0 <==> quote == 0 || bps == 0)
  {
    if bps <= MAX_TAKER_FEE_BPS && quote > 0 && bps > 0 {
      var x := quote * bps;
      MulPositive(quote, bps);
      MulMonotone(bps, 1_000, quote);
      var fee := (x + 9_999) / 10_000;
      assert fee * 10_000 <= x + 9_999 < fee * 10_000 + 10_000;
    } else if quote == 0 {
      assert quote * bps == 0;
    } else if bps == 0 {
      assert quote * bps == 0;
    }
  }

  function Sum(parts: seq<u64>): nat {
    if parts == [] then 0 else parts[0] + Sum(parts[1..])
  }

  function SumFees(parts: seq<u64>, bps: nat): nat
    requires bps <= MAX_TAKER_FEE_BPS
  {
    if parts == [] then 0
    else
      FeeIsCeiling(parts[0], bps);
      CalculateTakerFee(parts[0], bps).value + SumFees(parts[1..], bps)
  }

  lemma SumsStep(parts: seq<u64>, bps: nat)
    requires bps <= MAX_TAKER_FEE_BPS && parts != []
    ensures CalculateTakerFee(parts[0], bps).Some?
    ensures Sum(parts) == parts[0] + Sum(parts[1..])
    ensures SumFees(parts, bps) == CalculateTakerFee(parts[0], bps).value + SumFees(parts[1..], bps)
    ensures Sum(parts) * bps == parts[0] * bps + Sum(parts[1..]) * bps
  {
    hide CalculateTakerFee;
    FeeIsCeiling(parts[0], bps);
    assert (parts[0] + Sum(parts[1..])) * bps == parts[0] * bps + Sum(parts[1..]) * bps;
  }

  /** Fees of the parts stay within one atom per part of the exact rate on their sum. */
  lemma {:induction false} SplitFeeBounds(parts: seq<u64>, bps: nat)
    requires bps <= MAX_TAKER_FEE_BPS
    ensures Sum(parts) * bps <= SumFees(parts, bps) * BASIS_POINTS_DENOMINATOR
    ensures SumFees(parts, bps) * BASIS_POINTS_DENOMINATOR <= Sum(parts) * bps + |parts| * (BASIS_POINTS_DENOMINATOR - 1)
  {
    if parts == [] {
    } else {
      hide CalculateTakerFee, Sum, SumFees;
      SplitFeeBounds(parts[1..], bps);
      FeeIsCeiling(parts[0], bps);
      SumsStep(parts, bps);
    }
  }

  /** Splitting a notional into n parts never lowers the fee and raises it by at most n - 1 atoms. */
  lemma SplittingNeverAvoidsFees(parts: seq<u64>, bps: nat)
    requires bps <= MAX_TAKER_FEE_BPS && parts != [] && Sum(parts) <= U64_MAX
    ensures CalculateTakerFee(Sum(parts), bps).Some?
    ensures var whole := CalculateTakerFee(Sum(parts), bps).value;
      whole <= SumFees(parts, bps) <= whole + |parts| - 1
  {
    FeeIsCeiling(Sum(parts), bps);
    SplitFeeBounds(parts, bps);
  }

  /** ceil(notional * bps / 10000), as the client computes it. */
  function CeilFee(notional: nat, bps: nat): nat {
    (notional * bps + 9999) / 10000
  }

  /** The client's fee is the chain's fee. */
  lemma ClientFeeIsChainFee(notional: u64, bps: nat)
    requires bps <= MAX_TAKER_FEE_BPS
    ensures CalculateTakerFee(notional, bps) == Some(CeilFee(notional, bps))
    ensures CeilFee(notional, bps) <= notional
  {
    FeeIsCeiling(notional, bps);
    if notional == 0 || bps == 0 { assert notional * bps == 0; }
  }
}
