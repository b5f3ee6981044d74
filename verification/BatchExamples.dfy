/** One order in a batch of one asset, from its engagement to the batch's first fill. */
module BatchExamples {
  import opened Common
  import opened BatchLots
  import opened BatchFillSpec
  import opened BatchFillTheory
  import opened BatchManagerSpec
  import opened BatchRuns
  import opened BatchSafety
  import BatchShortage

  /** All of what is filled of the asset, up to a quantity. */
  function OnlyPart(order: string, symbol: string, quantity: real): Engagement {
    Engagement(order, Buy, [BasketAsset(symbol, 1.0)], map[symbol := 1.0], map[symbol := quantity], quantity, 0.0, 0.0)
  }

  /** Twenty are ordered, at a price of one. */
  function Only(order: string, symbol: string, quantity: real): EngagedOrders {
    EngagedOrders(map[symbol := 20.0], map[symbol := 1.0], [OnlyPart(order, symbol, quantity)])
  }

  function OnlyPositions(symbol: string): Positions {
    map[AssetKey(symbol, Buy) := NewPosition(1.0, 20.0)]
  }

  lemma OnlyPrices(e: EngagedOrders, symbol: string)
    requires e.quantities == map[symbol := 20.0] && e.prices == map[symbol := 1.0]
    ensures Priced(e) && NewPositions(e) == OnlyPositions(symbol) && VolleyOf(NewPositions(e)) == 20.0
  {
    var k, positions := AssetKey(symbol, Buy), NewPositions(e);
    assert positions == OnlyPositions(symbol);
    assert positions.Keys == {k} && {k} - {k} == {};
    SumOverTake({k}, VolleyAt(positions), k);
  }

  lemma OnlyIsOk(order: string, symbol: string, quantity: real)
    requires 0.0 < quantity
    ensures var e := Only(order, symbol, quantity);
      EngagementOk(e.orders[0]) && FairShares(e.orders) && Unfilled(e.orders)
  {
    var es := Only(order, symbol, quantity).orders;
    var x := es[0];
    assert x.basket[1..] == [];
    forall k ensures SumBy(es, FractionAt(k)) <= 1.0 {
      SumByOne(x, FractionAt(k));
    }
  }

  function Answer(order: string, confirmation: Confirmation): map<string, Confirmation> {
    map[order := confirmation]
  }

  /** What the order manager's answer makes of the order and its engagement. */
  lemma OnlyAnswered(
      s: State, id: string, order: string, symbol: string, quantity: real, confirmation: Confirmation, now: int)
    requires id in s.engagements && s.engagements[id] == Only(order, symbol, quantity) && order in s.orders
    ensures var o := BatchManagerSpec.Engage(s.orders[order], confirmation, now); var es := s.engagements[id];
      EngageOrders(s, id, Answer(order, confirmation), now) ==
        s.(orders := s.orders[order := o], readyBatches := s.readyBatches + [id],
           engagements := s.engagements[id := es.(orders := [es.orders[0].(collateral := o.engaged)])])
  {
    hide BatchManagerSpec.Engage;
    var confirmations := Answer(order, confirmation);
    var es := s.engagements[id];
    var o := BatchManagerSpec.Engage(s.orders[order], confirmation, now);
    var e := es.orders[0].(collateral := o.engaged);
    assert es.orders[0 := e] == [e];
    var s' := s.(orders := s.orders[order := o], engagements := s.engagements[id := es.(orders := [e])]);
    BatchShortage.OneEngaged(s, id, 0, confirmations, now, s');
    assert EngageFrom(s', id, 1, confirmations, now) == s';
  }

  /** The batch as it is sent, when nothing of its asset was carried over. */
  ghost predicate JustSent(b: Batch, symbol: string, now: int) {
    b.positions == OnlyPositions(symbol) && b.volleySize == 20.0 && !b.cancelled && b.timestamp == now
  }

  lemma OnlySends(s: State, id: string, symbol: string, now: int, c: Config)
    requires id in s.engagements && id !in s.batches && s.engagements[id].orders != []
    requires s.engagements[id].quantities == map[symbol := 20.0] && s.engagements[id].prices == map[symbol := 1.0]
    requires AssetKey(symbol, Buy) !in s.carryOvers
    ensures var sent := SendBatch(s, id, now, c); var s' := sent.0;
      && sent.1.Done? && id in s'.batches && JustSent(s'.batches[id], symbol, now)
      && s' == s.(batches := s.batches[id := s'.batches[id]], totalVolley := s'.totalVolley, outbox := s'.outbox)
  {
    hide VolleyOf, ToSend, NewPositions;
    var e := s.engagements[id];
    OnlyPrices(e, symbol);
    var k, positions := AssetKey(symbol, Buy), OnlyPositions(symbol);
    assert CarryIn(positions, s.carryOvers) == positions;
    assert k in positions && !positions[k].cancelled;
    assert s.carryOvers - positions.Keys == s.carryOvers;
  }

  /** A round that sends one batch whose first fill changes nothing. */
  lemma QuietRound(s: State, id: string, now: int, c: Config)
    requires s.readyBatches == [id] && 1 <= c.maxBatchSize && id in s.engagements
    requires forall j :: j in s.batches ==> !s.batches[j].cancelled
    requires var sent := SendBatch(s.(readyBatches := []), id, now, c);
      && sent.1.Done? && FillFrom(sent.0, id, 0, c.th) == (sent.0, Done)
      && sent.0.batches == s.batches[id := sent.0.batches[id]] && !sent.0.batches[id].cancelled
    ensures ProcessBatches(s, now, c) == (SendBatch(s.(readyBatches := []), id, now, c).0, Done)
  {
    hide SendBatch, FillFrom;
    var taken := s.(readyBatches := []);
    assert [id][..1] == [id] && [id][1..] == [] && [id] + [] == [id];
    assert s.readyBatches[..1] == [id] && s.readyBatches[1..] == [];
    var sent := SendBatch(taken, id, now, c).0;
    assert SendAll(sent, [], now, c) == Sending(sent, [], true);
    assert SendAll(taken, [id], now, c) == Sending(sent, [id], true);
    assert FirstFill(sent, id, now, c) == (sent, Done);
    assert FirstFillAll(sent, [], now, c) == (sent, Done);
    assert FirstFillAll(sent, [id], now, c) == (sent, Done);
    NothingToClean(sent);
  }

  lemma NothingToClean(s: State)
    requires forall j :: j in s.batches ==> !s.batches[j].cancelled
    ensures Cleanup(s) == s
  {
    var gone := set id | id in s.batches && s.batches[id].cancelled;
    assert gone == {};
    assert s.batches - gone == s.batches && s.engagements - gone == s.engagements;
  }

  /** The rate at which the one asset lets the order fill. */
  lemma OnlyRate(p: Position, e: Engagement, symbol: string, filled: real)
    requires e.basket == [BasketAsset(symbol, 1.0)] && e.fractions == map[symbol := 1.0] && 0.0 < e.quantity
    requires e.contributions == map[symbol := e.quantity] && filled == Min(p.quantity, e.quantity)
    ensures var rate := BasketRate(e.basket, Buy, map[AssetKey(symbol, Buy) := p], e);
      rate.Rate? && FilledAt(e, rate.r) == filled
  {
    var q := e.quantity;
    assert 1.0 * q == q && p.quantity * 1.0 == p.quantity;
    assert BasketRate(e.basket, Buy, map[AssetKey(symbol, Buy) := p], e)
      == AssetRate(e.basket[0], Buy, map[AssetKey(symbol, Buy) := p], e) == Rate(filled / q);
    assert filled / q <= 1.0 && filled / q * q == filled;
  }

  /** Part of the only lot is handed out, or all of it. */
  lemma OnlyLot(basket: seq<BasketAsset>, symbol: string, p: Position, lot: BatchLot, need: real, t: real)
    requires basket == [BasketAsset(symbol, 1.0)] && p.openLots == [lot] && 0.0 < lot.original && lot.fee == 0.0
    requires 0.0 <= t && need <= lot.remaining - t
    ensures var k := AssetKey(symbol, Buy); var b := AllocateBasket(basket, Buy, map[k := p], need, t);
      b.error.None? && b.positions == map[k := p.(openLots := [lot.(remaining := lot.remaining - need)])]
      && b.lots == [BuildAssetLot(lot, symbol, need)] && b.spent == need * lot.price
  {
    hide CostOf;
    assert Asked(basket[0], need) == need && basket[1..] == [] && p.openLots[1..] == [];
    var given, left := BuildAssetLot(lot, symbol, need), lot.(remaining := lot.remaining - need);
    assert [left] + [] == [left] && [given] + [] == [given];
    var a := Allocate(p.openLots, p.closedLots, symbol, need, t);
    assert a == Allocation([left], p.closedLots, [given], 0.0, true) by {
      NothingLeft(need, lot.remaining, t);
    }
    SumByOne(given, CostOf);
    NoFee(lot, symbol, need);
  }

  lemma NothingLeft(need: real, remaining: real, t: real)
    requires need <= remaining - t
    ensures !(-t < need - remaining) && -(need - remaining) == remaining - need
  {
  }

  lemma NoFee(lot: BatchLot, symbol: string, quantity: real)
    requires lot.original != 0.0 && lot.fee == 0.0
    ensures CostOf(BuildAssetLot(lot, symbol, quantity)) == quantity * lot.price
  {
    assert lot.fee * (quantity / lot.original) == 0.0;
  }

  /** A whole lot handed out. */
  lemma WholeLot(lot: BatchLot, symbol: string, t: real)
    requires t == 0.0 && lot.original != 0.0 && lot.remaining > 0.0 && lot.fee == 0.0
    ensures Allocate([lot], [], symbol, lot.remaining, t)
      == Allocation([lot.(remaining := 0.0)], [], [BuildAssetLot(lot, symbol, lot.remaining)], 0.0, true)
    ensures SumBy([BuildAssetLot(lot, symbol, lot.remaining)], CostOf) == lot.remaining * lot.price
  {
    assert [lot.(remaining := 0.0)] + [lot][1..] == [lot.(remaining := 0.0)];
    SumByOne(BuildAssetLot(lot, symbol, lot.remaining), CostOf);
  }

  lemma OneAsset(a: BasketAsset, p: Position, e: Engagement, t: real)
    requires t == 0.0 && p.openLots != [] && p.openLots == [p.openLots[0]] && p.closedLots == []
    requires var lot := p.openLots[0]; lot.original != 0.0 && lot.remaining > 0.0 && lot.fee == 0.0
    requires a.quantity == 1.0 && e.quantity == p.quantity == p.openLots[0].remaining
    requires e.fractions == map[a.symbol := 1.0] && e.contributions == map[a.symbol := p.quantity]
    ensures BasketRate([a], Buy, map[AssetKey(a.symbol, Buy) := p], e) == Rate(1.0)
    ensures var b := AllocateBasket([a], Buy, map[AssetKey(a.symbol, Buy) := p], e.quantity, t);
      && b.error.None? && b.spent == p.quantity * p.openLots[0].price
      && b.lots == [BuildAssetLot(p.openLots[0], a.symbol, p.quantity)]
  {
    hide Allocate, BuildAssetLot;
    var positions := map[AssetKey(a.symbol, Buy) := p];
    WholeLot(p.openLots[0], a.symbol, t);
    assert [a][1..] == [] && [a][0] == a;
    var q := p.quantity;
    assert q / q == 1.0;
    assert Min(q * 1.0, q) / q == 1.0;
    assert a.quantity * e.quantity == q;
    assert AssetRate(a, Buy, positions, e) == Rate(1.0);
    assert Allocate(p.openLots, p.closedLots, a.symbol, a.quantity * e.quantity, t).left == 0.0;
  }

  // Half a lot

  const A := AssetKey("A", Buy)
  const B := AssetKey("B", Buy)
  const NEW := NewPosition(1.0, 20.0)

  function Paying(w: real): SolverOrder { SolverOrder(Buy, w, 0.0, 0.0, w, 0.0, 0.0, 0, Ready, Some("P"), []) }

  function AllIn(w: real): SolverOrder { Paying(w).(remaining := 0.0, engaged := w, status := Engaged) }

  function Twice(quantity: real): Execution { Execution("E", "L", None, 1.0, quantity + quantity, 0.0) }

  function Half(quantity: real): BatchLot { NewLot(Twice(quantity)).(remaining := quantity) }

  function TwoLots(quantity: real): Position { BatchShortage.Extended(NEW, Twice(quantity)) }

  function WithHalf(quantity: real): Position { TwoLots(quantity).(openLots := [Half(quantity)]) }

  function HalfGiven(quantity: real, w: real, status: Status): SolverOrder
    requires 0.0 < quantity
  {
    AllIn(w).(engaged := w - quantity, spent := quantity, filled := quantity, status := status,
              lots := [BuildAssetLot(NewLot(Twice(quantity)), "A", quantity)])
  }

  /** Twice the quantity is executed. */
  lemma Executes(s: State, id: string, quantity: real, c: Config)
    requires id in s.batches && s.batches[id].positions == OnlyPositions("A") && s.batches[id].volleySize == 20.0
    ensures UpdateBatch(s.batches[id], A, Twice(quantity), 0).ok
    ensures var b := UpdateBatch(s.batches[id], A, Twice(quantity), 0).batch;
      && b.positions == map[A := TwoLots(quantity)] && b.volleySize == 20.0 && b.timestamp == 0
      && b.cancelled == s.batches[id].cancelled
  {
    assert map[A := NEW][A := TwoLots(quantity)] == map[A := TwoLots(quantity)];
  }

  lemma HalfIsShare(quantity: real, share: real)
    requires 0.0 < share && 0.0 < quantity
    ensures var w := quantity / share; 0.0 < w && quantity / w == share
  {
    var w := quantity / share;
    assert w * share == quantity;
  }

  /** The order gets half of it. */
  lemma FillsHalf(order: string, quantity: real, w: real, th: Thresholds)
    requires 0.0 <= th.zero <= quantity && 0.0 < quantity && 0.0 < w
    ensures var e := OnlyPart(order, "A", quantity).(collateral := w);
      var f := FillIndexOrder(map[A := TwoLots(quantity)], e, AllIn(w), 0, th);
      && f.positions == map[A := WithHalf(quantity)] && f.engagement == e.(filled := quantity)
      && f.order == HalfGiven(quantity, w, Promoted(Engaged, quantity / w, th))
      && f.mintable == (th.mint < quantity / w) && f.error.None?
  {
    hide BasketRate, FilledAt, AllocateBasket, BuildAssetLot;
    var e, p, lot := OnlyPart(order, "A", quantity).(collateral := w), TwoLots(quantity), NewLot(Twice(quantity));
    OnlyRate(p, e, "A", quantity);
    assert p.openLots == [] + [lot] == [lot];
    OnlyLot(e.basket, "A", p, lot, quantity, th.zero);
    assert quantity * lot.price == quantity && lot.remaining - quantity == quantity;
    assert [] + [BuildAssetLot(lot, "A", quantity)] == [BuildAssetLot(lot, "A", quantity)];
  }
}
