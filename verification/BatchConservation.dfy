/** Nothing a batch acquires is lost or counted twice: what was acquired is in batches, in carry-overs, with orders,
    or was passed on with a mint. */
module BatchConservation {
  import opened Common
  import opened BatchLots
  import opened BatchFillSpec
  import opened BatchManagerSpec
  import opened BatchRuns

  /** What is counted: quantities or execution fees, of all lots or of one lot and whatever was split off it. */
  datatype Measure = Measure(fees: bool, lot: Option<string>)

  predicate Selects(m: Measure, lotId: string) {
    m.lot.None? || m.lot.value == lotId
  }

  /** The part of a lot's fee that falls to a quantity. */
  function FeeFor(quantity: real, original: real, fee: real): real {
    if original == 0.0 then 0.0 else fee * (quantity / original)
  }

  /** What is left of a lot, or the fee for what is left. */
  function LotWeight(m: Measure): BatchLot -> real {
    (l: BatchLot) =>
      if !Selects(m, l.lotId) then 0.0 else if m.fees then FeeFor(l.remaining, l.original, l.fee) else l.remaining
  }

  function AssetWeight(symbol: string, m: Measure): AssetLot -> real {
    (a: AssetLot) =>
      if !(a.symbol == symbol && Selects(m, a.lotId)) then 0.0 else if m.fees then a.feeShare else a.quantity
  }

  function OpenAt(positions: Positions, k: AssetKey, m: Measure): real {
    if k in positions then SumBy(positions[k].openLots, LotWeight(m)) else 0.0
  }

  function OpenIn(batches: map<string, Batch>, k: AssetKey, m: Measure): string -> real {
    (id: string) => if id in batches then OpenAt(batches[id].positions, k, m) else 0.0
  }

  function CarriedAt(carryOvers: CarryOvers, k: AssetKey, m: Measure): real {
    if k in carryOvers then SumBy(carryOvers[k].lots, LotWeight(m)) else 0.0
  }

  function HeldBy(o: SolverOrder, k: AssetKey, m: Measure): real {
    if o.side == k.side then SumBy(o.lots, AssetWeight(k.symbol, m)) else 0.0
  }

  function HeldIn(orders: map<string, SolverOrder>, k: AssetKey, m: Measure): string -> real {
    (key: string) => if key in orders then HeldBy(orders[key], k, m) else 0.0
  }

  ghost function Open(s: State, k: AssetKey, m: Measure): real {
    SumOver(s.batches.Keys, OpenIn(s.batches, k, m))
  }

  ghost function Held(s: State, k: AssetKey, m: Measure): real {
    SumOver(s.orders.Keys, HeldIn(s.orders, k, m))
  }

  ghost function Total(s: State, k: AssetKey, m: Measure): real {
    Open(s, k, m) + CarriedAt(s.carryOvers, k, m) + Held(s, k, m)
  }

  // Lots opened for nothing hold nothing

  ghost predicate SoundLots(lots: seq<BatchLot>) {
    forall l :: l in lots && l.original == 0.0 ==> l.remaining == 0.0
  }

  ghost predicate SoundPositions(positions: Positions) {
    forall k :: k in positions ==> SoundLots(positions[k].openLots)
  }

  ghost predicate Sound(s: State) {
    && (forall id :: id in s.batches ==> SoundPositions(s.batches[id].positions))
    && (forall k :: k in s.carryOvers ==> SoundLots(s.carryOvers[k].lots))
  }

  // Allocation moves quantity from lots to the order

  lemma FeeSplits(q: real, r: real, original: real, fee: real)
    requires original != 0.0
    ensures FeeFor(q, original, fee) + FeeFor(r - q, original, fee) == FeeFor(r, original, fee)
    ensures FeeFor(original, original, fee) == fee
  {
    assert q / original + (r - q) / original == r / original;
  }

  lemma NothingHasNoFee(original: real, fee: real)
    ensures FeeFor(0.0, original, fee) == 0.0
  {
    assert original != 0.0 ==> 0.0 / original == 0.0;
  }

  lemma BuiltLotWeight(lot: BatchLot, symbol: string, quantity: real, m: Measure)
    requires lot.original != 0.0
    ensures var left := lot.(remaining := lot.remaining - quantity);
      AssetWeight(symbol, m)(BuildAssetLot(lot, symbol, quantity)) + LotWeight(m)(left) == LotWeight(m)(lot)
  {
    FeeSplits(quantity, lot.remaining, lot.original, lot.fee);
  }

  lemma EmptyLotWeight(lot: BatchLot, m: Measure)
    requires lot.remaining == 0.0
    ensures LotWeight(m)(lot) == 0.0
  {
    NothingHasNoFee(lot.original, lot.fee);
  }

  lemma {:induction false} AllocateMoves(
      open: seq<BatchLot>, closed: seq<BatchLot>, symbol: string, quantity: real, t: real, m: Measure)
    requires SoundLots(open)
    ensures var a := Allocate(open, closed, symbol, quantity, t);
      && SoundLots(a.open)
      && SumBy(a.open, LotWeight(m)) + SumBy(a.lots, AssetWeight(symbol, m)) == SumBy(open, LotWeight(m))
  {
    hide BuildAssetLot, LotWeight, AssetWeight;
    if open != [] {
      var lot := open[0];
      assert lot.original == 0.0 ==> lot.remaining == 0.0;
      if lot.original == 0.0 {
        EmptyLotWeight(lot, m);
      } else {
        if -t < quantity - lot.remaining {
          var x := BuildAssetLot(lot, symbol, lot.remaining);
          var rest := Allocate(open[1..], closed + [lot.(remaining := 0.0)], symbol, quantity - lot.remaining, t);
          AllocateMoves(open[1..], closed + [lot.(remaining := 0.0)], symbol, quantity - lot.remaining, t, m);
          BuiltLotWeight(lot, symbol, lot.remaining, m);
          EmptyLotWeight(lot.(remaining := lot.remaining - lot.remaining), m);
          assert ([x] + rest.lots)[1..] == rest.lots;
        } else {
          var left := lot.(remaining := lot.remaining - quantity);
          assert ([left] + open[1..])[1..] == open[1..];
          BuiltLotWeight(lot, symbol, quantity, m);
          SumByOne(BuildAssetLot(lot, symbol, quantity), AssetWeight(symbol, m));
        }
      }
    }
  }

  /** Allocations carry the symbol of their position. */
  lemma {:induction false} AllocatedSymbol(
      open: seq<BatchLot>, closed: seq<BatchLot>, symbol: string, quantity: real, t: real)
    ensures forall a :: a in Allocate(open, closed, symbol, quantity, t).lots ==> a.symbol == symbol
  {
    if open != [] && open[0].original != 0.0 && -t < quantity - open[0].remaining {
      AllocatedSymbol(open[1..], closed + [open[0].(remaining := 0.0)], symbol, quantity - open[0].remaining, t);
    }
  }

  lemma {:induction false} OtherSymbolWeighsNothing(lots: seq<AssetLot>, symbol: string, m: Measure)
    requires forall a :: a in lots ==> a.symbol != symbol
    ensures SumBy(lots, AssetWeight(symbol, m)) == 0.0
  {
    if lots != [] {
      OtherSymbolWeighsNothing(lots[1..], symbol, m);
    }
  }

  /** What lots weigh at a key when they go to an order of a side. */
  function GivenAt(lots: seq<AssetLot>, side: Side, k: AssetKey, m: Measure): real {
    if side == k.side then SumBy(lots, AssetWeight(k.symbol, m)) else 0.0
  }

  lemma GivenAppend(xs: seq<AssetLot>, ys: seq<AssetLot>, side: Side, k: AssetKey, m: Measure)
    ensures GivenAt(xs + ys, side, k, m) == GivenAt(xs, side, k, m) + GivenAt(ys, side, k, m)
  {
    SumByAppend(xs, ys, AssetWeight(k.symbol, m));
  }

  /** One asset of a basket, at any key. */
  lemma AssetMoves(positions: Positions, key: AssetKey, quantity: real, t: real, k: AssetKey, m: Measure)
    requires key in positions && SoundPositions(positions)
    ensures var p := positions[key];
      var a := Allocate(p.openLots, p.closedLots, key.symbol, quantity, t);
      var positions' := positions[key := p.(openLots := a.open, closedLots := a.closed)];
      && SoundPositions(positions')
      && OpenAt(positions', k, m) + GivenAt(a.lots, key.side, k, m) == OpenAt(positions, k, m)
  {
    var p := positions[key];
    AllocateMoves(p.openLots, p.closedLots, key.symbol, quantity, t, m);
    AllocatedSymbol(p.openLots, p.closedLots, key.symbol, quantity, t);
    if k.side == key.side && k != key {
      assert k.symbol != key.symbol;
      OtherSymbolWeighsNothing(Allocate(p.openLots, p.closedLots, key.symbol, quantity, t).lots, k.symbol, m);
    }
  }

  lemma {:induction false} BasketMoves(
      basket: seq<BasketAsset>, side: Side, positions: Positions, delta: real, t: real, k: AssetKey, m: Measure)
    requires SoundPositions(positions)
    ensures var b := AllocateBasket(basket, side, positions, delta, t);
      && SoundPositions(b.positions)
      && OpenAt(b.positions, k, m) + GivenAt(b.lots, side, k, m) == OpenAt(positions, k, m)
  {
    hide OpenAt, SoundPositions;
    if basket != [] {
      var key := AssetKey(basket[0].symbol, side);
      if key in positions {
        var p := positions[key];
        var a := Allocate(p.openLots, p.closedLots, key.symbol, Asked(basket[0], delta), t);
        var positions' := positions[key := p.(openLots := a.open, closedLots := a.closed)];
        AssetMoves(positions, key, Asked(basket[0], delta), t, k, m);
        if a.ok && a.left <= t {
          BasketMoves(basket[1..], side, positions', delta, t, k, m);
          GivenAppend(a.lots, AllocateBasket(basket[1..], side, positions', delta, t).lots, side, k, m);
        }
      }
    }
  }

  /** A fill moves quantity from the batch to the order, whether or not it succeeds. */
  lemma FillMoves(
      positions: Positions, e: Engagement, o: SolverOrder, now: int, th: Thresholds, k: AssetKey, m: Measure)
    requires SoundPositions(positions)
    ensures var f := FillIndexOrder(positions, e, o, now, th);
      && SoundPositions(f.positions)
      && f.order.side == o.side
      && OpenAt(f.positions, k, m) + HeldBy(f.order, k, m) == OpenAt(positions, k, m) + HeldBy(o, k, m)
  {
    hide OpenAt, SoundPositions, BasketRate, AllocateBasket;
    var rate := BasketRate(e.basket, o.side, positions, e);
    if rate.Rate? {
      var delta := FilledAt(e, rate.r) - e.filled;
      BasketMoves(e.basket, o.side, positions, delta, th.zero, k, m);
      GivenAppend(o.lots, AllocateBasket(e.basket, o.side, positions, delta, th.zero).lots, o.side, k, m);
    }
  }

  // What each step acquires, passes on and drops

  datatype Flow = Flow(acquired: real, minted: real, lost: real) {
    function Plus(f: Flow): Flow { Flow(acquired + f.acquired, minted + f.minted, lost + f.lost) }
  }

  const NO_FLOW := Flow(0.0, 0.0, 0.0)

  function CancelledIn(s: State): set<string> {
    set id | id in s.batches && s.batches[id].cancelled
  }

  /** What an execution brings in; the fee of an execution of nothing falls to nobody. */
  function Worth(x: Execution, m: Measure): real {
    if !Selects(m, x.lotId) then 0.0
    else if !m.fees then x.quantity
    else if x.quantity == 0.0 then 0.0 else x.fee
  }

  lemma NewLotIsWorth(x: Execution, m: Measure)
    ensures LotWeight(m)(NewLot(x)) == Worth(x, m)
  {
    if x.quantity != 0.0 {
      FeeSplits(0.0, x.quantity, x.quantity, x.fee);
    }
  }

  function Acquired(s: State, id: string, k': AssetKey, x: Execution, now: int, k: AssetKey, m: Measure): real {
    if id in s.batches && UpdateBatch(s.batches[id], k', x, now).ok && k == k' then Worth(x, m) else 0.0
  }

  predicate Sends(s: State, id: string) {
    id in s.engagements && s.engagements[id].orders != [] && Priced(s.engagements[id])
  }

  ghost function FlowOf(s: State, step: Step, k: AssetKey, m: Measure): Flow {
    match step
    case Execute(id, k', x, now) => NO_FLOW.(acquired := Acquired(s, id, k', x, now, k, m))
    case Drain(key) => NO_FLOW.(minted := HeldIn(s.orders, k, m)(key))
    case Clean => NO_FLOW.(lost := SumOver(CancelledIn(s), OpenIn(s.batches, k, m)))
    case Send(id, _) => NO_FLOW.(lost := if Sends(s, id) then OpenIn(s.batches, k, m)(id) else 0.0)
    case _ => NO_FLOW
  }

  ghost predicate Conserves(s: State, s': State, f: Flow, k: AssetKey, m: Measure) {
    Sound(s') && Total(s', k, m) == Total(s, k, m) + f.acquired - f.minted - f.lost
  }

  // One step at a time

  /** A batch put in, possibly in place of another. */
  lemma BatchPut(batches: map<string, Batch>, id: string, b: Batch, k: AssetKey, m: Measure)
    ensures var batches' := batches[id := b];
      SumOver(batches'.Keys, OpenIn(batches', k, m))
        == SumOver(batches.Keys, OpenIn(batches, k, m)) - OpenIn(batches, k, m)(id) + OpenAt(b.positions, k, m)
    ensures id in batches ==> OpenIn(batches, k, m)(id) == OpenAt(batches[id].positions, k, m)
  {
    hide OpenAt;
    var batches' := batches[id := b];
    if id in batches {
      assert batches'.Keys == batches.Keys;
      SumOverChange(batches.Keys, OpenIn(batches, k, m), OpenIn(batches', k, m), id);
    } else {
      assert batches'.Keys == batches.Keys + {id};
      SumOverAdd(batches.Keys, OpenIn(batches', k, m), id);
      SumOverSame(batches.Keys, OpenIn(batches, k, m), OpenIn(batches', k, m));
    }
  }

  /** An order put in, possibly in place of another. */
  lemma OrderPut(orders: map<string, SolverOrder>, key: string, o: SolverOrder, k: AssetKey, m: Measure)
    ensures var orders' := orders[key := o];
      SumOver(orders'.Keys, HeldIn(orders', k, m))
        == SumOver(orders.Keys, HeldIn(orders, k, m)) - HeldIn(orders, k, m)(key) + HeldBy(o, k, m)
    ensures HeldIn(orders, k, m)(key) == if key in orders then HeldBy(orders[key], k, m) else 0.0
  {
    hide HeldBy;
    var orders' := orders[key := o];
    if key in orders {
      assert orders'.Keys == orders.Keys;
      SumOverChange(orders.Keys, HeldIn(orders, k, m), HeldIn(orders', k, m), key);
    } else {
      assert orders'.Keys == orders.Keys + {key};
      SumOverAdd(orders.Keys, HeldIn(orders', k, m), key);
      SumOverSame(orders.Keys, HeldIn(orders, k, m), HeldIn(orders', k, m));
    }
  }

  ghost predicate SameLots(orders: map<string, SolverOrder>, orders': map<string, SolverOrder>) {
    && orders'.Keys == orders.Keys
    && forall key :: key in orders ==> orders'[key].side == orders[key].side && orders'[key].lots == orders[key].lots
  }

  lemma AnsweredKeepsLots(s: State, s': State, id: string)
    requires s'.orders.Keys == s.orders.Keys
    requires forall key :: key in s.orders ==> AnsweredOrder(s.orders[key], s'.orders[key])
    ensures SameLots(s.orders, s'.orders)
  {
  }

  lemma SameLotsHeld(s: State, s': State, k: AssetKey, m: Measure)
    requires SameLots(s.orders, s'.orders)
    ensures Held(s', k, m) == Held(s, k, m)
  {
    SumOverSame(s.orders.Keys, HeldIn(s.orders, k, m), HeldIn(s'.orders, k, m));
  }

  lemma UpdateMoves(b: Batch, k': AssetKey, x: Execution, now: int, k: AssetKey, m: Measure)
    requires SoundPositions(b.positions)
    ensures var u := UpdateBatch(b, k', x, now);
      && SoundPositions(u.batch.positions)
      && OpenAt(u.batch.positions, k, m) == OpenAt(b.positions, k, m)
           + if u.ok && k == k' then Worth(x, m) else 0.0
  {
    if k' in b.positions {
      SumByAppend(b.positions[k'].openLots, [NewLot(x)], LotWeight(m));
      SumByOne(NewLot(x), LotWeight(m));
      NewLotIsWorth(x, m);
      assert SoundLots(b.positions[k'].openLots);
    }
  }

  lemma ExecuteConserves(s: State, id: string, k': AssetKey, x: Execution, now: int, k: AssetKey, m: Measure)
    requires Sound(s) && id in s.batches
    ensures var s' := s.(batches := s.batches[id := UpdateBatch(s.batches[id], k', x, now).batch]);
      Conserves(s, s', NO_FLOW.(acquired := Acquired(s, id, k', x, now, k, m)), k, m)
  {
    hide OpenAt, OpenIn, HeldBy, CarriedAt, UpdateBatch, SoundPositions;
    UpdateMoves(s.batches[id], k', x, now, k, m);
    BatchPut(s.batches, id, UpdateBatch(s.batches[id], k', x, now).batch, k, m);
  }

  lemma FillConserves(s: State, id: string, i: nat, th: Thresholds, k: AssetKey, m: Measure)
    requires Sound(s) && CanFill(s, id, i)
    ensures Conserves(s, AfterFill(s, id, i, FillOf(s, id, i, th)), NO_FLOW, k, m)
  {
    hide FillIndexOrder, OpenAt, HeldBy, OpenIn, HeldIn, SoundPositions, CarriedAt;
    var e := s.engagements[id].orders[i];
    var f := FillOf(s, id, i, th);
    FillMoves(s.batches[id].positions, e, s.orders[e.order], s.batches[id].timestamp, th, k, m);
    BatchPut(s.batches, id, s.batches[id].(positions := f.positions), k, m);
    OrderPut(s.orders, e.order, f.order, k, m);
  }

  lemma EmptiedHoldsNothing(positions: Positions, k: AssetKey, m: Measure)
    ensures OpenAt(Emptied(positions), k, m) == 0.0
    ensures SoundPositions(Emptied(positions))
  {
    if k in positions && positions[k].openLots != [] {
      EmptyLotWeight(positions[k].openLots[0].(remaining := 0.0), m);
      SumByOne(positions[k].openLots[0].(remaining := 0.0), LotWeight(m));
    }
  }

  lemma CarryOutMoves(positions: Positions, carryOvers: CarryOvers, k: AssetKey, m: Measure)
    ensures CarriedAt(CarryOut(positions, carryOvers), k, m) == CarriedAt(carryOvers, k, m) + OpenAt(positions, k, m)
  {
    if k in positions && k in carryOvers {
      SumByAppend(carryOvers[k].lots, positions[k].openLots, LotWeight(m));
    }
  }

  lemma CarryOutSound(positions: Positions, carryOvers: CarryOvers)
    requires SoundPositions(positions) && forall k :: k in carryOvers ==> SoundLots(carryOvers[k].lots)
    ensures forall k :: k in CarryOut(positions, carryOvers) ==> SoundLots(CarryOut(positions, carryOvers)[k].lots)
  {
    forall k | k in CarryOut(positions, carryOvers) ensures SoundLots(CarryOut(positions, carryOvers)[k].lots) {
      assert k in carryOvers ==> SoundLots(carryOvers[k].lots);
      assert k in positions ==> SoundLots(positions[k].openLots);
    }
  }

  lemma CarryConserves(s: State, id: string, k: AssetKey, m: Measure)
    requires Sound(s) && id in s.batches
    ensures var b := s.batches[id];
      Conserves(s, s.(batches := s.batches[id := b.(positions := Emptied(b.positions))],
                      carryOvers := CarryOut(b.positions, s.carryOvers)), NO_FLOW, k, m)
  {
    hide OpenAt, OpenIn, CarriedAt, CarryOut, Emptied, SoundLots, SoundPositions;
    var b := s.batches[id];
    EmptiedHoldsNothing(b.positions, k, m);
    CarryOutMoves(b.positions, s.carryOvers, k, m);
    CarryOutSound(b.positions, s.carryOvers);
    BatchPut(s.batches, id, b.(positions := Emptied(b.positions)), k, m);
  }

  lemma CompleteConserves(s: State, id: string, now: int, c: Config, k: AssetKey, m: Measure)
    requires Sound(s) && id in s.batches
    ensures Conserves(s, Complete(s, id, now, c).0, NO_FLOW, k, m)
  {
    hide Continued, DueMints, Promote, CarryAll, CarryOut, Emptied, SoundLots, SoundPositions, SameLots, OpenIn,
        CarriedAt;
    CarryConserves(s, id, k, m);
    CompleteKeepsLots(s, id, now, c);
    SameLotsHeld(s, Complete(s, id, now, c).0, k, m);
  }

  lemma CompleteKeepsLots(s: State, id: string, now: int, c: Config)
    requires id in s.batches
    ensures SameLots(s.orders, Complete(s, id, now, c).0.orders)
  {
    hide DueMints, CarryOut, Emptied;
    if id in s.engagements {
      var promoted := Promote(s.orders, DueMints(s, now, c.mintWait));
      CarryAllOnlyCarries(promoted, Continued(s.engagements[id].orders, promoted));
    }
  }

  lemma CarryInMoves(e: EngagedOrders, carryOvers: CarryOvers, k: AssetKey, m: Measure)
    requires Priced(e) && forall j :: j in carryOvers ==> SoundLots(carryOvers[j].lots)
    ensures var positions := CarryIn(NewPositions(e), carryOvers);
      && SoundPositions(positions)
      && OpenAt(positions, k, m) + CarriedAt(carryOvers - NewPositions(e).Keys, k, m) == CarriedAt(carryOvers, k, m)
  {
    var news := NewPositions(e);
    forall j | j in news ensures news[j].openLots == [] {
    }
    if k in news && k in carryOvers {
      assert [] + carryOvers[k].lots == carryOvers[k].lots;
    }
    forall j | j in CarryIn(news, carryOvers) ensures SoundLots(CarryIn(news, carryOvers)[j].openLots) {
      assert j in carryOvers ==> SoundLots(carryOvers[j].lots);
    }
  }

  lemma SendConserves(s: State, id: string, now: int, c: Config, k: AssetKey, m: Measure)
    requires Sound(s)
    ensures Conserves(s, SendBatch(s, id, now, c).0, FlowOf(s, Send(id, now), k, m), k, m)
  {
    hide OpenAt, HeldBy, CarriedAt, VolleyOf, CarryIn, NewPositions, ToSend, OpenIn, SoundLots, SoundPositions;
    if Sends(s, id) {
      var e := s.engagements[id];
      CarryInMoves(e, s.carryOvers, k, m);
      BatchPut(s.batches, id, NewBatch(e, s.carryOvers, now), k, m);
    }
  }

  lemma CleanConserves(s: State, k: AssetKey, m: Measure)
    requires Sound(s)
    ensures Conserves(s, Cleanup(s), FlowOf(s, Clean, k, m), k, m)
  {
    hide OpenAt, HeldBy;
    var gone := CancelledIn(s);
    var s' := Cleanup(s);
    assert s'.batches.Keys == s.batches.Keys - gone;
    SumOverSplit(s.batches.Keys, gone, OpenIn(s.batches, k, m));
    SumOverSame(s'.batches.Keys, OpenIn(s.batches, k, m), OpenIn(s'.batches, k, m));
  }

  lemma PutOrderConserves(s: State, key: string, o: SolverOrder, k: AssetKey, m: Measure, minted: real)
    requires Sound(s) && HeldBy(o, k, m) == HeldIn(s.orders, k, m)(key) - minted
    ensures Conserves(s, s.(orders := s.orders[key := o]), NO_FLOW.(minted := minted), k, m)
  {
    hide SoundPositions, SoundLots, CarriedAt, HeldBy, HeldIn;
    OrderPut(s.orders, key, o, k, m);
  }

  lemma OrderStepConserves(s: State, step: Step, c: Config, k: AssetKey, m: Measure)
    requires Sound(s) && (step.Arrive? || step.Change? || step.Drain?)
    ensures Conserves(s, Apply(s, step, c), FlowOf(s, step, k, m), k, m)
  {
    hide Sound, Total, AssetWeight;
    var s' := Apply(s, step, c);
    if step.Arrive? && step.key !in s.orders {
      PutOrderConserves(s, step.key, step.o.(lots := []), k, m, 0.0);
    } else if !step.Arrive? && step.key in s.orders {
      PutOrderConserves(s, step.key, s'.orders[step.key], k, m, FlowOf(s, step, k, m).minted);
    }
  }

  /** Every step accounts for every lot, for any tolerance and in any state. */
  lemma StepConserves(s: State, step: Step, c: Config, k: AssetKey, m: Measure)
    requires Sound(s)
    ensures Conserves(s, Apply(s, step, c), FlowOf(s, step, k, m), k, m)
  {
    hide OpenAt, CarriedAt, HeldBy, UpdateBatch, FillIndexOrder, Complete, SendBatch, Cleanup, Acquired,
        SoundPositions, EngageFrom;
    match step
    case Execute(id, k', x, now) => if id in s.batches { ExecuteConserves(s, id, k', x, now, k, m); }
        else { NothingAcquired(s, step, k, m); }
    case FillNext(id, i) => if CanFill(s, id, i) { FillConserves(s, id, i, c.th, k, m); }
    case Finish(id, now) => if id in s.batches { CompleteConserves(s, id, now, c, k, m); }
    case Send(id, now) => SendConserves(s, id, now, c, k, m);
    case Clean => CleanConserves(s, k, m);
    case Confirm(id, confirmations, now) =>
      if id in s.engagements {
        AnswersOnly(s, id, 0, confirmations, now);
        AnsweredKeepsLots(s, Apply(s, step, c), id);
        SameLotsHeld(s, Apply(s, step, c), k, m);
      }
    case CancelOrder(id, k', quantity, cancelled) => CancelConserves(s, step, c, k, m);
    case Arrive(_, _) => OrderStepConserves(s, step, c, k, m);
    case Change(_, _) => OrderStepConserves(s, step, c, k, m);
    case Drain(_) => OrderStepConserves(s, step, c, k, m);
    case Register(_, _) =>
    case TakeReady(_) =>
  }

  lemma NothingAcquired(s: State, step: Step, k: AssetKey, m: Measure)
    requires step.Execute? && step.id !in s.batches
    ensures FlowOf(s, step, k, m) == NO_FLOW
  {
  }

  lemma CancelMoves(b: Batch, k': AssetKey, quantity: real, cancelled: bool, k: AssetKey, m: Measure)
    requires SoundPositions(b.positions) && k' in b.positions
    ensures var b' := CancelAsset(b, k', quantity, cancelled);
      SoundPositions(b'.positions) && OpenAt(b'.positions, k, m) == OpenAt(b.positions, k, m)
  {
    assert SoundLots(b.positions[k'].openLots);
  }

  lemma CancelConserves(s: State, step: Step, c: Config, k: AssetKey, m: Measure)
    requires Sound(s) && step.CancelOrder?
    ensures Conserves(s, Apply(s, step, c), NO_FLOW, k, m)
  {
    hide CarriedAt, HeldBy, OpenAt, OpenIn, SoundPositions, CancelAsset;
    if step.id in s.batches && step.k in s.batches[step.id].positions {
      var b := s.batches[step.id];
      CancelMoves(b, step.k, step.quantity, step.cancelled, k, m);
      BatchPut(s.batches, step.id, CancelAsset(b, step.k, step.quantity, step.cancelled), k, m);
    }
  }

  // Whole runs

  ghost function Flows(steps: seq<Step>, c: Config, k: AssetKey, m: Measure): Flow
    decreases |steps|
  {
    if steps == [] then NO_FLOW
    else
      var before := steps[..|steps| - 1];
      Flows(before, c, k, m).Plus(FlowOf(Run(before, c), steps[|steps| - 1], k, m))
  }

  /** After any run, all the quantity that was acquired, and all of its fees, are in a batch, carried over, with an
      order, minted, or were dropped with a batch that was removed before it was completed. */
  lemma {:induction false} RunsConserve(steps: seq<Step>, c: Config, k: AssetKey, m: Measure)
    ensures var s, f := Run(steps, c), Flows(steps, c, k, m);
      && Sound(s)
      && f.acquired == Open(s, k, m) + CarriedAt(s.carryOvers, k, m) + Held(s, k, m) + f.minted + f.lost
    decreases |steps|
  {
    if steps != [] {
      hide Apply, FlowOf, CarriedAt, Open, Held;
      var before := steps[..|steps| - 1];
      RunsConserve(before, c, k, m);
      StepConserves(Run(before, c), steps[|steps| - 1], c, k, m);
    }
  }

  // Lots that are used up

  ghost predicate UsedUp(lots: seq<BatchLot>, m: Measure) {
    forall l :: l in lots && Selects(m, l.lotId) ==> l.remaining == 0.0
  }

  lemma {:induction false} UsedUpWeighsNothing(lots: seq<BatchLot>, m: Measure)
    requires UsedUp(lots, m)
    ensures SumBy(lots, LotWeight(m)) == 0.0
  {
    if lots != [] {
      assert lots[0] in lots;
      if Selects(m, lots[0].lotId) {
        EmptyLotWeight(lots[0], m);
      }
      UsedUpWeighsNothing(lots[1..], m);
    }
  }

  /** A lot with nothing left anywhere passed on all of its quantity and exactly its fee, however often it was split
      and carried over. */
  lemma UsedUpLotsPassedOnTheirFee(steps: seq<Step>, c: Config, k: AssetKey, m: Measure)
    requires var s := Run(steps, c);
      && (forall id :: id in s.batches && k in s.batches[id].positions ==>
            UsedUp(s.batches[id].positions[k].openLots, m))
      && (k in s.carryOvers ==> UsedUp(s.carryOvers[k].lots, m))
    ensures var s, f := Run(steps, c), Flows(steps, c, k, m);
      Held(s, k, m) + f.minted == f.acquired - f.lost
  {
    hide UsedUp, LotWeight, Flows, Run;
    var s := Run(steps, c);
    RunsConserve(steps, c, k, m);
    forall id | id in s.batches ensures OpenIn(s.batches, k, m)(id) == 0.0 {
      if k in s.batches[id].positions {
        UsedUpWeighsNothing(s.batches[id].positions[k].openLots, m);
      }
    }
    SumOverZero(s.batches.Keys, OpenIn(s.batches, k, m));
    if k in s.carryOvers {
      UsedUpWeighsNothing(s.carryOvers[k].lots, m);
    }
  }

  // When nothing is dropped

  /** Nothing happens in a completed batch, batches are sent once, and only completed batches are removed. */
  predicate Tidy(s: State, finished: set<string>, step: Step) {
    match step
    case Execute(id, _, _, _) => id !in finished
    case FillNext(id, _) => id !in finished
    case Send(id, _) => id !in s.batches
    case Clean => CancelledIn(s) <= finished
    case _ => true
  }

  ghost predicate TidyRun(steps: seq<Step>, c: Config)
    decreases |steps|
  {
    steps == [] ||
    var before := steps[..|steps| - 1];
    TidyRun(before, c) && Tidy(Run(before, c), Finished(before), steps[|steps| - 1])
  }

  ghost predicate HoldsNothing(b: Batch) {
    forall k, l :: k in b.positions && l in b.positions[k].openLots ==> l.remaining == 0.0
  }

  ghost predicate FinishedAreEmpty(s: State, finished: set<string>) {
    forall id :: id in s.batches && id in finished ==> HoldsNothing(s.batches[id])
  }

  lemma FinishedStayEmpty(s: State, finished: set<string>, step: Step, c: Config)
    requires FinishedAreEmpty(s, finished) && Tidy(s, finished, step)
    ensures FinishedAreEmpty(Apply(s, step, c), NowFinished(finished, step))
  {
    hide UpdateBatch, FillOf, Complete, NewBatch, NewPositions, ToSend;
    match step
    case Confirm(id, confirmations, now) =>
      if id in s.engagements {
        AnswersOnly(s, id, 0, confirmations, now);
      }
    case CancelOrder(id, k, quantity, cancelled) =>
      if id in s.batches && k in s.batches[id].positions && id in finished {
        assert HoldsNothing(s.batches[id]);
      }
    case Finish(id, now) => if id in s.batches { CompleteEmpties(s, id, now, c); }
    case _ =>
  }

  lemma CompleteEmpties(s: State, id: string, now: int, c: Config)
    requires id in s.batches
    ensures var s' := Complete(s, id, now, c).0;
      && s'.batches == s.batches[id := s'.batches[id]]
      && HoldsNothing(s'.batches[id])
  {
    hide DueMints, Promote, Continued, CarryAll, CarryOut;
  }

  lemma EmptiedWeighsNothing(b: Batch, k: AssetKey, m: Measure)
    requires HoldsNothing(b)
    ensures OpenAt(b.positions, k, m) == 0.0
  {
    if k in b.positions {
      UsedUpWeighsNothing(b.positions[k].openLots, m);
    }
  }

  lemma TidyLosesNothing(s: State, finished: set<string>, step: Step, k: AssetKey, m: Measure)
    requires FinishedAreEmpty(s, finished) && Tidy(s, finished, step)
    ensures FlowOf(s, step, k, m).lost == 0.0
  {
    hide OpenAt, HoldsNothing;
    if step.Clean? {
      forall id | id in CancelledIn(s) ensures OpenIn(s.batches, k, m)(id) == 0.0 {
        EmptiedWeighsNothing(s.batches[id], k, m);
      }
      SumOverZero(CancelledIn(s), OpenIn(s.batches, k, m));
    }
  }

  /** In a tidy run completed batches hold nothing. */
  lemma {:induction false} CompletedHoldNothing(steps: seq<Step>, c: Config)
    requires TidyRun(steps, c)
    ensures FinishedAreEmpty(Run(steps, c), Finished(steps))
    decreases |steps|
  {
    hide FinishedAreEmpty, NowFinished, Apply, Tidy;
    if steps == [] {
      NothingIsEmpty();
    } else {
      var before := steps[..|steps| - 1];
      CompletedHoldNothing(before, c);
      FinishedStayEmpty(Run(before, c), Finished(before), steps[|steps| - 1], c);
    }
  }

  lemma {:induction false} TidyRunLosesNothing(steps: seq<Step>, c: Config, k: AssetKey, m: Measure)
    requires TidyRun(steps, c)
    ensures Flows(steps, c, k, m).lost == 0.0
    decreases |steps|
  {
    hide FlowOf, FinishedAreEmpty, Tidy, Run;
    if steps != [] {
      var before := steps[..|steps| - 1];
      CompletedHoldNothing(before, c);
      TidyRunLosesNothing(before, c, k, m);
      TidyLosesNothing(Run(before, c), Finished(before), steps[|steps| - 1], k, m);
    }
  }

  /** In a tidy run nothing is lost: what was acquired is open, carried over, with an order, or minted. */
  lemma NothingIsLost(steps: seq<Step>, c: Config, k: AssetKey, m: Measure)
    requires TidyRun(steps, c)
    ensures var s, f := Run(steps, c), Flows(steps, c, k, m);
      f.acquired == Open(s, k, m) + CarriedAt(s.carryOvers, k, m) + Held(s, k, m) + f.minted
  {
    hide Run, Flows, TidyRun, Open, CarriedAt, Held;
    RunsConserve(steps, c, k, m);
    TidyRunLosesNothing(steps, c, k, m);
  }

  lemma NothingIsEmpty()
    ensures FinishedAreEmpty(NOTHING, {})
  {
  }
}
