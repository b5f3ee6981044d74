/** Lots that a batch acquires, and how they are allocated to index orders first in, first out. */
module BatchLots {
  import opened Common

  /** `remaining` is the part not allocated yet. */
  datatype BatchLot = BatchLot(
    orderId: string,
    lotId: string,
    closingLotId: Option<string>,
    original: real,
    remaining: real,
    price: real,
    fee: real)

  /** The part of a lot that an index order was given. */
  datatype AssetLot = AssetLot(
    lotId: string,
    symbol: string,
    price: real,
    original: real,
    remaining: real,
    originalFee: real,
    quantity: real,
    feeShare: real)

  /** Requires what the source's checked division requires. */
  function BuildAssetLot(lot: BatchLot, symbol: string, quantity: real): AssetLot
    requires lot.original != 0.0
  {
    AssetLot(lot.lotId, symbol, lot.price, lot.original, lot.remaining, lot.fee, quantity,
        lot.fee * (quantity / lot.original))
  }

  /** What an allocation costs its index order. */
  function CostOf(a: AssetLot): real { a.quantity * a.price + a.feeShare }

  function QuantityOf(a: AssetLot): real { a.quantity }

  function RemainingOf(lot: BatchLot): real { lot.remaining }

  function Available(open: seq<BatchLot>): real { SumBy(open, RemainingOf) }

  /** `lots` were handed to the order, `left` is what no lot covered; `ok` fails on a lot of no quantity. */
  datatype Allocation = Allocation(
    open: seq<BatchLot>, closed: seq<BatchLot>, lots: seq<AssetLot>, left: real, ok: bool)

  function Allocate(open: seq<BatchLot>, closed: seq<BatchLot>, symbol: string, quantity: real, t: real): Allocation {
    if open == [] then Allocation([], closed, [], quantity, true)
    else
      var lot := open[0];
      var rest := quantity - lot.remaining;
      if -t < rest then
        if lot.original == 0.0 then Allocation(open[1..], closed, [], quantity, false)
        else
          var a := Allocate(open[1..], closed + [lot.(remaining := 0.0)], symbol, rest, t);
          a.(lots := [BuildAssetLot(lot, symbol, lot.remaining)] + a.lots)
      else if lot.original == 0.0 then Allocation(open, closed, [], quantity, false)
      else Allocation([lot.(remaining := -rest)] + open[1..], closed, [BuildAssetLot(lot, symbol, quantity)], 0.0, true)
  }

  /** The allocation when `given` was already handed out. */
  function Later(given: seq<AssetLot>, a: Allocation): Allocation {
    a.(lots := given + a.lots)
  }

  lemma AllocateStep(
      given: seq<AssetLot>, open: seq<BatchLot>, closed: seq<BatchLot>, symbol: string, need: real, t: real)
    requires open != []
    ensures var lot := open[0]; var full := -t < need - lot.remaining;
      Later(given, Allocate(open, closed, symbol, need, t)) ==
        if lot.original == 0.0 then Allocation(if full then open[1..] else open, closed, given, need, false)
        else if full then
          Later(given + [BuildAssetLot(lot, symbol, lot.remaining)],
                Allocate(open[1..], closed + [lot.(remaining := 0.0)], symbol, need - lot.remaining, t))
        else
          Allocation([lot.(remaining := lot.remaining - need)] + open[1..], closed,
                     given + [BuildAssetLot(lot, symbol, need)], 0.0, true)
  {
    var lot := open[0];
    assert given + [] == given;
    if lot.original != 0.0 && -t < need - lot.remaining {
      var a := Allocate(open[1..], closed + [lot.(remaining := 0.0)], symbol, need - lot.remaining, t);
      var x := BuildAssetLot(lot, symbol, lot.remaining);
      assert given + ([x] + a.lots) == (given + [x]) + a.lots;
    }
  }

  /** Moves everything unallocated out: the first lot stays behind empty, the others leave. */
  function LeftBehind(open: seq<BatchLot>): seq<BatchLot> {
    if open == [] then [] else [open[0].(remaining := 0.0)]
  }

  class BatchAssetPosition {
    const symbol: string
    var openLots: seq<BatchLot>
    var closedLots: seq<BatchLot>

    constructor (symbol: string, open: seq<BatchLot>, closed: seq<BatchLot>)
      ensures this.symbol == symbol && openLots == open && closedLots == closed
    {
      this.symbol, openLots, closedLots := symbol, open, closed;
    }

    /** Hands the lots found to the index order; None is the error return. The lots handed out before an error stay
        with the order. */
    method TryAllocateLots(quantity: real, t: real, orderLots: seq<AssetLot>)
      returns (r: Option<(real, real)>, orderLots': seq<AssetLot>)
      modifies this
      ensures var a := Allocate(old(openLots), old(closedLots), symbol, quantity, t);
        && openLots == a.open
        && closedLots == a.closed
        && orderLots' == orderLots + a.lots
        && r == if a.ok then Some((a.left, SumBy(a.lots, CostOf))) else None
    {
      var need, spent, given, ok, stop := quantity, 0.0, [], true, false;
      ghost var whole := Allocate(openLots, closedLots, symbol, quantity, t);
      assert [] + whole.lots == whole.lots;
      while openLots != [] && !stop
        invariant spent == SumBy(given, CostOf)
        invariant stop || ok
        invariant !stop ==> whole == Later(given, Allocate(openLots, closedLots, symbol, need, t))
        invariant stop ==> whole == Allocation(openLots, closedLots, given, need, ok)
        decreases |openLots|, !stop
      {
        var lot := openLots[0];
        var remainingQuantity := need - lot.remaining;
        var full := -t < remainingQuantity;
        AllocateStep(given, openLots, closedLots, symbol, need, t);
        if lot.original == 0.0 {
          openLots := if full then openLots[1..] else openLots;
          ok, stop := false, true;
        } else {
          var allocation := BuildAssetLot(lot, symbol, if full then lot.remaining else need);
          SumByAppend(given, [allocation], CostOf);
          SumByOne(allocation, CostOf);
          given, spent := given + [allocation], spent + CostOf(allocation);
          if full {
            openLots, closedLots, need := openLots[1..], closedLots + [lot.(remaining := 0.0)], remainingQuantity;
          } else {
            openLots, need, stop := [lot.(remaining := -remainingQuantity)] + openLots[1..], 0.0, true;
          }
        }
      }
      assert openLots == [] && !stop ==> whole == Allocation(openLots, closedLots, given + [], need, ok);
      assert given + [] == given;
      orderLots' := orderLots + given;
      r := if ok then Some((need, spent)) else None;
    }

    /** Hands over what is unallocated. */
    method CarryOver() returns (carried: seq<BatchLot>)
      modifies this`openLots
      ensures carried == old(openLots) && openLots == LeftBehind(old(openLots))
    {
      if openLots == [] {
        return [];
      }
      var first := openLots[0];
      carried := [first] + openLots[1..];
      openLots := [first.(remaining := 0.0)];
    }
  }

  // What allocation keeps

  ghost predicate Usable(open: seq<BatchLot>) {
    forall l :: l in open ==> l.original > 0.0 && l.remaining >= 0.0
  }

  /** Whatever leaves the lots is handed to the order or reported as left over, for every tolerance. */
  lemma {:induction false} AllocationConserves(
      open: seq<BatchLot>, closed: seq<BatchLot>, symbol: string, quantity: real, t: real)
    requires Usable(open)
    ensures var a := Allocate(open, closed, symbol, quantity, t);
      && a.ok
      && SumBy(a.lots, QuantityOf) == quantity - a.left
      && Available(a.open) == Available(open) - (quantity - a.left)
  {
    if open != [] {
      var lot := open[0];
      assert lot.original > 0.0;
      var rest := quantity - lot.remaining;
      if -t < rest {
        AllocationConserves(open[1..], closed + [lot.(remaining := 0.0)], symbol, rest, t);
        SumByAppend([BuildAssetLot(lot, symbol, lot.remaining)],
          Allocate(open[1..], closed + [lot.(remaining := 0.0)], symbol, rest, t).lots, QuantityOf);
        SumByOne(BuildAssetLot(lot, symbol, lot.remaining), QuantityOf);
      } else {
        SumByOne(BuildAssetLot(lot, symbol, quantity), QuantityOf);
        assert Allocate(open, closed, symbol, quantity, t).open[1..] == open[1..];
      }
    }
  }

  /** More than the tolerance is left over exactly when the lots are short by more than that, and then all that they
      are short of. Otherwise at most a shortage within the tolerance is left, and never less than minus that. */
  lemma {:induction false} AllocationLeft(
      open: seq<BatchLot>, closed: seq<BatchLot>, symbol: string, quantity: real, t: real)
    requires 0.0 <= t && Usable(open) && -t <= quantity
    ensures var a := Allocate(open, closed, symbol, quantity, t);
      && -t <= a.left
      && (t < a.left <==> Available(open) + t < quantity)
      && (0.0 < a.left ==> a.left == quantity - Available(open))
      && Usable(a.open)
  {
    if open != [] {
      assert open[0].original > 0.0 && open[0].remaining >= 0.0;
      var rest := quantity - open[0].remaining;
      SumByNonNegative(open[1..], RemainingOf);
      if -t < rest {
        AllocationLeft(open[1..], closed + [open[0].(remaining := 0.0)], symbol, rest, t);
      }
    }
  }

  /** Allocations from usable lots are nonnegative when there is no tolerance. */
  lemma {:induction false} AllocationNonNegative(
      open: seq<BatchLot>, closed: seq<BatchLot>, symbol: string, quantity: real, t: real)
    requires t == 0.0 && Usable(open) && 0.0 <= quantity
    requires forall l :: l in open ==> l.price >= 0.0 && l.fee >= 0.0
    ensures var a := Allocate(open, closed, symbol, quantity, t);
      && (forall x :: x in a.lots ==> x.quantity >= 0.0 && CostOf(x) >= 0.0)
      && (forall l :: l in a.open ==> l.price >= 0.0 && l.fee >= 0.0)
  {
    if open != [] {
      var lot := open[0];
      assert lot.original > 0.0 && lot.remaining >= 0.0 && lot.price >= 0.0 && lot.fee >= 0.0;
      var rest := quantity - lot.remaining;
      if -t < rest {
        CostNonNegative(lot, symbol, lot.remaining);
        AllocationNonNegative(open[1..], closed + [lot.(remaining := 0.0)], symbol, rest, t);
      } else {
        CostNonNegative(lot, symbol, quantity);
      }
    }
  }

  lemma CostNonNegative(lot: BatchLot, symbol: string, quantity: real)
    requires lot.original > 0.0 && quantity >= 0.0 && lot.price >= 0.0 && lot.fee >= 0.0
    ensures CostOf(BuildAssetLot(lot, symbol, quantity)) >= 0.0
  {
    assert quantity / lot.original >= 0.0;
  }
}
