/** Every lot that an order was handed carries the price at which it was executed. */
module BatchPrices {
  import opened Common
  import opened BatchLots
  import opened BatchFillSpec
  import opened BatchManagerSpec
  import opened BatchRuns

  type Prices = set<(string, real)>

  /** The lots executed so far, with their prices. */
  function ExecutedLots(steps: seq<Step>): Prices
    decreases |steps|
  {
    if steps == [] then {} else ExecutedLots(steps[..|steps| - 1]) + ExecutedIn(steps[|steps| - 1])
  }

  function ExecutedIn(step: Step): Prices {
    match step
    case Execute(_, _, x, _) => {(x.lotId, x.price)}
    case _ => {}
  }

  predicate OpenFrom(open: seq<BatchLot>, prices: Prices) {
    forall l :: l in open ==> (l.lotId, l.price) in prices
  }

  predicate GivenFrom(lots: seq<AssetLot>, prices: Prices) {
    forall a :: a in lots ==> (a.lotId, a.price) in prices
  }

  predicate PositionsFrom(positions: Positions, prices: Prices) {
    forall k :: k in positions ==> OpenFrom(positions[k].openLots, prices)
  }

  predicate CarriedFromThese(carryOvers: CarryOvers, prices: Prices) {
    forall k :: k in carryOvers ==> OpenFrom(carryOvers[k].lots, prices)
  }

  /** Whatever is open in a batch, carried over or with an order was executed at its price. */
  predicate From(s: State, prices: Prices) {
    && (forall id :: id in s.batches ==> PositionsFrom(s.batches[id].positions, prices))
    && CarriedFromThese(s.carryOvers, prices)
    && (forall key :: key in s.orders ==> GivenFrom(s.orders[key].lots, prices))
  }

  lemma {:induction false} AllocateFrom(
      open: seq<BatchLot>, closed: seq<BatchLot>, symbol: string, quantity: real, t: real, prices: Prices)
    requires OpenFrom(open, prices)
    ensures var a := Allocate(open, closed, symbol, quantity, t);
      OpenFrom(a.open, prices) && GivenFrom(a.lots, prices)
  {
    if open != [] {
      assert open[0] in open;
      AllocateFrom(open[1..], closed + [open[0].(remaining := 0.0)], symbol, quantity - open[0].remaining, t, prices);
    }
  }

  lemma {:induction false} BasketFrom(
      basket: seq<BasketAsset>, side: Side, positions: Positions, delta: real, t: real, prices: Prices)
    requires PositionsFrom(positions, prices)
    ensures var b := AllocateBasket(basket, side, positions, delta, t);
      PositionsFrom(b.positions, prices) && GivenFrom(b.lots, prices)
  {
    hide Allocate, OpenFrom;
    if basket != [] {
      var key := AssetKey(basket[0].symbol, side);
      if key in positions {
        var p, units := positions[key], Asked(basket[0], delta);
        AllocateFrom(p.openLots, p.closedLots, key.symbol, units, t, prices);
        var a := Allocate(p.openLots, p.closedLots, key.symbol, units, t);
        BasketFrom(basket[1..], side, positions[key := p.(openLots := a.open, closedLots := a.closed)], delta, t,
                   prices);
      }
    }
  }

  lemma FillFromThese(
      positions: Positions, e: Engagement, o: SolverOrder, now: int, th: Thresholds, prices: Prices)
    requires PositionsFrom(positions, prices) && GivenFrom(o.lots, prices)
    ensures var f := FillIndexOrder(positions, e, o, now, th);
      PositionsFrom(f.positions, prices) && GivenFrom(f.order.lots, prices)
  {
    hide BasketRate, AllocateBasket, FilledAt, PositionsFrom;
    var rate := BasketRate(e.basket, o.side, positions, e);
    if rate.Rate? {
      BasketFrom(e.basket, o.side, positions, FilledAt(e, rate.r) - e.filled, th.zero, prices);
    }
  }

  lemma CompletesFrom(positions: Positions, carryOvers: CarryOvers, prices: Prices)
    requires PositionsFrom(positions, prices) && CarriedFromThese(carryOvers, prices)
    ensures PositionsFrom(Emptied(positions), prices) && CarriedFromThese(CarryOut(positions, carryOvers), prices)
  {
    forall k | k in positions ensures OpenFrom(LeftBehind(positions[k].openLots), prices) {
      assert OpenFrom(positions[k].openLots, prices);
    }
    forall k | k in CarryOut(positions, carryOvers)
      ensures OpenFrom(CarryOut(positions, carryOvers)[k].lots, prices)
    {
      assert k in positions ==> OpenFrom(positions[k].openLots, prices);
      assert k in carryOvers ==> OpenFrom(carryOvers[k].lots, prices);
    }
  }

  lemma SendsFrom(e: EngagedOrders, carryOvers: CarryOvers, prices: Prices)
    requires Priced(e) && CarriedFromThese(carryOvers, prices)
    ensures PositionsFrom(CarryIn(NewPositions(e), carryOvers), prices)
  {
    var positions := CarryIn(NewPositions(e), carryOvers);
    forall k | k in positions ensures OpenFrom(positions[k].openLots, prices) {
      if k in carryOvers {
        assert [] + carryOvers[k].lots == carryOvers[k].lots && OpenFrom(carryOvers[k].lots, prices);
      }
    }
  }

  lemma UpdatesFrom(b: Batch, k: AssetKey, x: Execution, now: int, prices: Prices)
    requires PositionsFrom(b.positions, prices) && (x.lotId, x.price) in prices
    ensures PositionsFrom(UpdateBatch(b, k, x, now).batch.positions, prices)
  {
    if k in b.positions {
      assert OpenFrom(b.positions[k].openLots, prices);
    }
  }

  lemma MorePrices(s: State, prices: Prices, more: Prices)
    requires From(s, prices) && prices <= more
    ensures From(s, more)
  {
    forall id | id in s.batches ensures PositionsFrom(s.batches[id].positions, more) {
      assert PositionsFrom(s.batches[id].positions, prices);
      forall k | k in s.batches[id].positions ensures OpenFrom(s.batches[id].positions[k].openLots, more) {
        assert OpenFrom(s.batches[id].positions[k].openLots, prices);
      }
    }
    forall k | k in s.carryOvers ensures OpenFrom(s.carryOvers[k].lots, more) {
      assert OpenFrom(s.carryOvers[k].lots, prices);
    }
    forall key | key in s.orders ensures GivenFrom(s.orders[key].lots, more) {
      assert GivenFrom(s.orders[key].lots, prices);
    }
  }

  lemma FinishFrom(s: State, id: string, now: int, c: Config, prices: Prices)
    requires From(s, prices) && id in s.batches
    ensures From(Complete(s, id, now, c).0, prices)
  {
    hide PositionsFrom, CarriedFromThese, GivenFrom, CarryOut, Emptied, DueMints, Continued, CarryAll;
    CompletesFrom(s.batches[id].positions, s.carryOvers, prices);
    if id in s.engagements {
      var promoted := Promote(s.orders, DueMints(s, now, c.mintWait));
      CarryAllOnlyCarries(promoted, Continued(s.engagements[id].orders, promoted));
    }
  }

  lemma ConfirmFrom(s: State, id: string, confirmations: map<string, Confirmation>, now: int, prices: Prices)
    requires From(s, prices) && id in s.engagements
    ensures From(EngageOrders(s, id, confirmations, now), prices)
  {
    hide PositionsFrom, CarriedFromThese, GivenFrom, EngageFrom;
    AnswersOnly(s, id, 0, confirmations, now);
    var s' := EngageFrom(s, id, 0, confirmations, now);
    forall key | key in s'.orders ensures GivenFrom(s'.orders[key].lots, prices) {
      assert AnsweredOrder(s.orders[key], s'.orders[key]);
    }
  }

  lemma OrderStepFrom(s: State, step: Step, c: Config, prices: Prices)
    requires From(s, prices)
    requires step.Register? || step.TakeReady? || step.Arrive? || step.Change? || step.Drain? || step.Clean?
    ensures From(Apply(s, step, c), prices)
  {
    hide PositionsFrom, CarriedFromThese;
  }

  lemma SendFrom(s: State, id: string, now: int, c: Config, prices: Prices)
    requires From(s, prices)
    ensures From(SendBatch(s, id, now, c).0, prices)
  {
    hide PositionsFrom, GivenFrom, OpenFrom, VolleyOf, AllCancelled, ToSend, NewPositions, CarryIn;
    if id in s.engagements && Priced(s.engagements[id]) {
      SendsFrom(s.engagements[id], s.carryOvers, prices);
    }
  }

  lemma CancelFrom(b: Batch, k: AssetKey, quantity: real, cancelled: bool, prices: Prices)
    requires PositionsFrom(b.positions, prices) && k in b.positions
    ensures PositionsFrom(CancelAsset(b, k, quantity, cancelled).positions, prices)
  {
  }

  lemma StepFrom(s: State, step: Step, c: Config, prices: Prices)
    requires From(s, prices)
    ensures From(Apply(s, step, c), prices + ExecutedIn(step))
  {
    hide PositionsFrom, CarriedFromThese, GivenFrom, FillIndexOrder, UpdateBatch, CancelAsset, Complete, SendBatch,
      EngageOrders, NewEngagement, Cleanup;
    var more := prices + ExecutedIn(step);
    MorePrices(s, prices, more);
    match step
    case Confirm(id, confirmations, now) =>
      if id in s.engagements { ConfirmFrom(s, id, confirmations, now, more); }
    case Send(id, now) => SendFrom(s, id, now, c, more);
    case Execute(id, k, x, now) => if id in s.batches { UpdatesFrom(s.batches[id], k, x, now, more); }
    case FillNext(id, i) =>
      if CanFill(s, id, i) {
        var e := s.engagements[id].orders[i];
        FillFromThese(s.batches[id].positions, e, s.orders[e.order], s.batches[id].timestamp, c.th, more);
      }
    case CancelOrder(id, k, quantity, cancelled) =>
      if id in s.batches && k in s.batches[id].positions {
        CancelFrom(s.batches[id], k, quantity, cancelled, more);
      }
    case Finish(id, now) => if id in s.batches { FinishFrom(s, id, now, c, more); }
    case _ => OrderStepFrom(s, step, c, more);
  }

  /** After any run every lot of an order was executed, at the price it carries, however often it was split, carried
      over or handed on. */
  lemma {:induction false} LotsKeepTheirPrice(steps: seq<Step>, c: Config)
    ensures From(Run(steps, c), ExecutedLots(steps))
    decreases |steps|
  {
    if steps != [] {
      hide From, Apply, ExecutedIn;
      var n := |steps| - 1;
      LotsKeepTheirPrice(steps[..n], c);
      StepFrom(Run(steps[..n], c), steps[n], c, ExecutedLots(steps[..n]));
    }
  }

  /** The exchange reports a lot at one price. */
  ghost predicate OnePriceEach(steps: seq<Step>) {
    forall a, b :: a in ExecutedLots(steps) && b in ExecutedLots(steps) && a.0 == b.0 ==> a.1 == b.1
  }

  /** So the parts of a lot that an order was handed have one price. */
  lemma OrdersHaveOnePrice(steps: seq<Step>, c: Config, key: string)
    requires OnePriceEach(steps) && key in Run(steps, c).orders
    ensures var lots := Run(steps, c).orders[key].lots;
      forall a, b :: a in lots && b in lots && a.lotId == b.lotId ==> a.price == b.price
  {
    hide Run, ExecutedLots;
    LotsKeepTheirPrice(steps, c);
    var lots := Run(steps, c).orders[key].lots;
    assert GivenFrom(lots, ExecutedLots(steps));
    forall a, b | a in lots && b in lots && a.lotId == b.lotId ensures a.price == b.price {
      assert (a.lotId, a.price) in ExecutedLots(steps) && (b.lotId, b.price) in ExecutedLots(steps);
    }
  }
}
