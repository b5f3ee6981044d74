/** Filling one index order from the positions of a batch. */
module BatchFillSpec {
  import opened Common
  import opened BatchLots

  datatype Status =
    | Open
    | ManageCollateral
    | Ready
    | Engaged
    | PartlyMintable
    | FullyMintable
    | Minted
    | InvalidSymbol
    | InvalidOrder
    | InvalidCollateral
    | ServiceUnavailable
    | InternalError

  /** The solver's view of an index order. */
  datatype SolverOrder = SolverOrder(
    side: Side,
    remaining: real,
    engaged: real,
    carried: real,
    routed: real,
    spent: real,
    filled: real,
    timestamp: int,
    status: Status,
    paymentId: Option<string>,
    lots: seq<AssetLot>)

  datatype AssetKey = AssetKey(symbol: string, side: Side)

  /** One asset of a batch on one side; `quantity` is what was filled or carried in so far. */
  datatype Position = Position(
    quantity: real,
    orderQuantity: real,
    realizedValue: real,
    volleySize: real,
    fee: real,
    cancelled: bool,
    quantityCancelled: real,
    openLots: seq<BatchLot>,
    closedLots: seq<BatchLot>)

  type Positions = map<AssetKey, Position>

  /** Units of an asset in one unit of the index. */
  datatype BasketAsset = BasketAsset(symbol: string, quantity: real)

  /** An order's part in a batch: the quantity engaged, the share of each asset's fills it may take,
      and how much of it is filled. */
  datatype Engagement = Engagement(
    order: string,
    side: Side,
    basket: seq<BasketAsset>,
    fractions: map<string, real>,
    contributions: map<string, real>,
    quantity: real,
    filled: real,
    collateral: real)

  /** zero: what counts as nothing; fill, mint: fill rates above which an order is fully or partly mintable. */
  datatype Thresholds = Thresholds(zero: real, fill: real, mint: real)

  datatype FillError =
    | InvalidState
    | MissingPosition
    | MissingFraction
    | MissingContribution
    | MathProblem
    | EmptyBasket
    | CouldntAllocate(left: real)

  // How much of the engagement the positions allow

  datatype Rate = Rate(r: real) | NoRate(error: FillError)

  function AssetRate(a: BasketAsset, side: Side, positions: Positions, e: Engagement): Rate {
    var key := AssetKey(a.symbol, side);
    var needed := a.quantity * e.quantity;
    if key !in positions then NoRate(MissingPosition)
    else if a.symbol !in e.fractions then NoRate(MissingFraction)
    else if a.symbol !in e.contributions then NoRate(MissingContribution)
    else if needed == 0.0 then NoRate(MathProblem)
    else Rate(Min(positions[key].quantity * e.fractions[a.symbol], e.contributions[a.symbol]) / needed)
  }

  /** The lowest rate over the basket. */
  function BasketRate(basket: seq<BasketAsset>, side: Side, positions: Positions, e: Engagement): Rate {
    if basket == [] then NoRate(EmptyBasket)
    else
      var first := AssetRate(basket[0], side, positions, e);
      if first.NoRate? || |basket| == 1 then first
      else
        var rest := BasketRate(basket[1..], side, positions, e);
        if rest.NoRate? then rest else Rate(Min(first.r, rest.r))
  }

  /** The fill rate never exceeds 100%. */
  function Capped(rate: real): real {
    if rate <= 1.0 then rate else 1.0
  }

  /** The quantity filled at that rate. */
  function FilledAt(e: Engagement, rate: real): real {
    Capped(rate) * e.quantity
  }

  // Handing out the lots

  /** What so many units of the index ask for of an asset. */
  function Asked(a: BasketAsset, units: real): real { a.quantity * units }

  /** After an error the positions and lots changed so far stay changed. */
  datatype BasketAllocation = BasketAllocation(
    positions: Positions, lots: seq<AssetLot>, spent: real, error: Option<FillError>)

  function AllocateBasket(basket: seq<BasketAsset>, side: Side, positions: Positions, delta: real, t: real)
    : BasketAllocation
  {
    if basket == [] then BasketAllocation(positions, [], 0.0, None)
    else
      var key := AssetKey(basket[0].symbol, side);
      if key !in positions then BasketAllocation(positions, [], 0.0, Some(MissingPosition))
      else
        var p := positions[key];
        var a := Allocate(p.openLots, p.closedLots, key.symbol, Asked(basket[0], delta), t);
        var positions' := positions[key := p.(openLots := a.open, closedLots := a.closed)];
        if !a.ok then BasketAllocation(positions', a.lots, 0.0, Some(MathProblem))
        else if a.left > t then BasketAllocation(positions', a.lots, 0.0, Some(CouldntAllocate(a.left)))
        else
          var rest := AllocateBasket(basket[1..], side, positions', delta, t);
          rest.(lots := a.lots + rest.lots, spent := SumBy(a.lots, CostOf) + rest.spent)
  }

  // Crediting the order

  function Credit(o: SolverOrder, delta: real, spent: real, lots: seq<AssetLot>, now: int): SolverOrder {
    o.(filled := o.filled + delta, engaged := o.engaged - spent, spent := o.spent + spent,
       lots := o.lots + lots, timestamp := now)
  }

  /** The order's collateral outside of what was carried over. */
  function TotalCollateral(o: SolverOrder): real { o.spent + (o.remaining + o.engaged) }

  function Promoted(status: Status, rate: real, th: Thresholds): Status {
    if th.fill < rate then FullyMintable
    else if status.Engaged? && th.mint < rate then PartlyMintable
    else status
  }

  datatype FillRequest = FillRequest(order: string, spent: real, quantity: real, rate: real, status: Status)

  /** `mintable` says that the order was put among the orders waiting to be minted. */
  datatype Filled = Filled(
    positions: Positions,
    engagement: Engagement,
    order: SolverOrder,
    mintable: bool,
    request: Option<FillRequest>,
    error: Option<FillError>)

  function CreditFill(
      b: BasketAllocation, e: Engagement, o: SolverOrder, filled: real, now: int, th: Thresholds): Filled {
    var delta := filled - e.filled;
    var e' := e.(filled := filled);
    var o' := Credit(o, delta, b.spent, b.lots, now);
    if TotalCollateral(o') == 0.0 then Filled(b.positions, e', o', false, None, Some(MathProblem))
    else
      var rate := o'.spent / TotalCollateral(o');
      var status := Promoted(o.status, rate, th);
      Filled(b.positions, e', o'.(status := status), o.status.Engaged? && th.mint < rate,
             Some(FillRequest(e.order, b.spent, delta, rate, status)), None)
  }

  function FillIndexOrder(positions: Positions, e: Engagement, o: SolverOrder, now: int, th: Thresholds): Filled {
    var same := Filled(positions, e, o, false, None, None);
    if o.status.FullyMintable? then same
    else if !o.status.Engaged? && !o.status.PartlyMintable? then same.(error := Some(InvalidState))
    else
      var rate := BasketRate(e.basket, o.side, positions, e);
      if rate.NoRate? then same.(error := Some(rate.error))
      else
        var filled := FilledAt(e, rate.r);
        var delta := filled - e.filled;
        if delta < th.zero then same
        else
          var b := AllocateBasket(e.basket, o.side, positions, delta, th.zero);
          if b.error.Some? then
            Filled(b.positions, e, o.(lots := o.lots + b.lots), false, None, b.error)
          else CreditFill(b, e, o, filled, now, th)
  }
}
