/** The mutable batch manager: each method is proved to do what its event says. */
module BatchManager {
  import opened Common
  import opened BatchLots
  import opened BatchFillSpec
  import opened BatchManagerSpec

  // Filling an order from positions

  /** The rate over a basket when `rate` is the lowest so far. */
  function LowestOf(rate: Option<real>, rest: Rate): Rate {
    if rate.None? || rest.NoRate? then rest else Rate(Min(rate.value, rest.r))
  }

  method ComputeFillRate(basket: seq<BasketAsset>, side: Side, positions: Positions, e: Engagement) returns (r: Rate)
    ensures r == BasketRate(basket, side, positions, e)
  {
    var rate: Option<real> := None;
    var i := 0;
    assert basket[0..] == basket;
    while i < |basket|
      invariant i <= |basket|
      invariant rate.Some? <==> 0 < i
      invariant i < |basket| ==>
        BasketRate(basket, side, positions, e) == LowestOf(rate, BasketRate(basket[i..], side, positions, e))
      invariant 0 < i == |basket| ==> BasketRate(basket, side, positions, e) == Rate(rate.value)
    {
      var asset := basket[i];
      assert basket[i..][0] == asset && basket[i..][1..] == basket[i + 1..];
      var available := AssetRate(asset, side, positions, e);
      if available.NoRate? {
        return available;
      }
      rate := Some(if rate.Some? then Min(rate.value, available.r) else available.r);
      i := i + 1;
    }
    r := if rate.Some? then Rate(rate.value) else NoRate(EmptyBasket);
  }

  /** What a basket's allocation comes to when `lots` and `spent` were already allocated. */
  function Further(lots: seq<AssetLot>, spent: real, rest: BasketAllocation): BasketAllocation {
    rest.(lots := lots + rest.lots, spent := spent + rest.spent)
  }

  lemma FurtherStep(
      lots: seq<AssetLot>, spent: real, basket: seq<BasketAsset>, side: Side, positions: Positions, delta: real,
      t: real, p: Position, need: real)
    requires basket != [] && AssetKey(basket[0].symbol, side) in positions
    requires p == positions[AssetKey(basket[0].symbol, side)] && need == Asked(basket[0], delta)
    ensures var a := Allocate(p.openLots, p.closedLots, basket[0].symbol, need, t);
      var positions' := positions[AssetKey(basket[0].symbol, side) := p.(openLots := a.open, closedLots := a.closed)];
      Further(lots, spent, AllocateBasket(basket, side, positions, delta, t)) ==
        if !a.ok then BasketAllocation(positions', lots + a.lots, spent, Some(MathProblem))
        else if a.left > t then BasketAllocation(positions', lots + a.lots, spent, Some(CouldntAllocate(a.left)))
        else
          var rest := AllocateBasket(basket[1..], side, positions', delta, t);
          Further(lots + a.lots, spent + SumBy(a.lots, CostOf), rest)
  {
    hide Allocate, CostOf;
    var a := Allocate(p.openLots, p.closedLots, basket[0].symbol, need, t);
    var positions' := positions[AssetKey(basket[0].symbol, side) := p.(openLots := a.open, closedLots := a.closed)];
    var rest := AllocateBasket(basket[1..], side, positions', delta, t);
    assert lots + (a.lots + rest.lots) == lots + a.lots + rest.lots;
  }

  method AllocateAsset(p: Position, symbol: string, quantity: real, t: real, orderLots: seq<AssetLot>)
    returns (p': Position, orderLots': seq<AssetLot>, result: Option<(real, real)>)
    ensures var a := Allocate(p.openLots, p.closedLots, symbol, quantity, t);
      && p' == p.(openLots := a.open, closedLots := a.closed)
      && orderLots' == orderLots + a.lots
      && result == if a.ok then Some((a.left, SumBy(a.lots, CostOf))) else None
  {
    var position := new BatchAssetPosition(symbol, p.openLots, p.closedLots);
    result, orderLots' := position.TryAllocateLots(quantity, t, orderLots);
    p' := p.(openLots := position.openLots, closedLots := position.closedLots);
  }

  lemma NothingFurther(lots: seq<AssetLot>, spent: real, side: Side, positions: Positions, delta: real, t: real)
    ensures Further(lots, spent, AllocateBasket([], side, positions, delta, t)) ==
      BasketAllocation(positions, lots, spent, None)
  {
    assert lots + [] == lots;
  }

  /** Allocates each asset of the basket in turn; the first error stops it and keeps what was given so far. */
  method AllocateAssets(basket: seq<BasketAsset>, side: Side, positions: Positions, delta: real, t: real)
    returns (b: BasketAllocation)
    ensures b == AllocateBasket(basket, side, positions, delta, t)
  {
    hide Allocate, CostOf, Further, AllocateBasket;
    var positions', lots, spent := positions, [], 0.0;
    NothingBefore(AllocateBasket(basket, side, positions, delta, t));
    assert basket[0..] == basket;
    var i := 0;
    while i < |basket|
      invariant i <= |basket|
      invariant AllocateBasket(basket, side, positions, delta, t)
             == Further(lots, spent, AllocateBasket(basket[i..], side, positions', delta, t))
    {
      var asset := basket[i];
      var key := AssetKey(asset.symbol, side);
      assert basket[i..][0] == asset && basket[i..][1..] == basket[i + 1..];
      if key !in positions' {
        MissingFurther(lots, spent, basket[i..], side, positions', delta, t);
        return BasketAllocation(positions', lots, spent, Some(MissingPosition));
      }
      var need := Asked(asset, delta);
      FurtherStep(lots, spent, basket[i..], side, positions', delta, t, positions'[key], need);
      var p, result;
      p, lots, result := AllocateAsset(positions'[key], key.symbol, need, t, lots);
      positions' := positions'[key := p];
      if result.None? {
        return BasketAllocation(positions', lots, spent, Some(MathProblem));
      }
      var (left, cost) := result.value;
      if left > t {
        return BasketAllocation(positions', lots, spent, Some(CouldntAllocate(left)));
      }
      spent := spent + cost;
      i := i + 1;
    }
    assert basket[i..] == [];
    NothingFurther(lots, spent, side, positions', delta, t);
    b := BasketAllocation(positions', lots, spent, None);
  }

  lemma NothingBefore(b: BasketAllocation)
    ensures Further([], 0.0, b) == b
  {
    assert [] + b.lots == b.lots;
  }

  lemma MissingFurther(
      lots: seq<AssetLot>, spent: real, basket: seq<BasketAsset>, side: Side, positions: Positions, delta: real,
      t: real)
    requires basket != [] && AssetKey(basket[0].symbol, side) !in positions
    ensures Further(lots, spent, AllocateBasket(basket, side, positions, delta, t))
         == BasketAllocation(positions, lots, spent, Some(MissingPosition))
  {
    assert lots + [] == lots;
  }

  /** The second half of a fill: the allocated lots are with the order, and what they cost is taken from what it has
      engaged. */
  method CreditOrder(
      b: BasketAllocation, e: Engagement, o: SolverOrder, filled: real, now: int, th: Thresholds) returns (f: Filled)
    ensures f == if b.error.Some? then Filled(b.positions, e, o.(lots := o.lots + b.lots), false, None, b.error)
                 else CreditFill(b, e, o, filled, now, th)
  {
    var order := o.(lots := o.lots + b.lots);
    if b.error.Some? {
      return Filled(b.positions, e, order, false, None, b.error);
    }
    var delta := filled - e.filled;
    order := order.(filled := order.filled + delta);
    order := order.(engaged := order.engaged - b.spent);
    order := order.(spent := order.spent + b.spent, timestamp := now);
    var total := order.spent + (order.remaining + order.engaged);
    if total == 0.0 {
      return Filled(b.positions, e.(filled := filled), order, false, None, Some(MathProblem));
    }
    var rate := order.spent / total;
    var mintable := false;
    if order.status.Engaged? && th.mint < rate {
      mintable := true;
      order := order.(status := PartlyMintable);
    }
    if th.fill < rate {
      order := order.(status := FullyMintable);
    }
    var request := FillRequest(e.order, b.spent, delta, rate, order.status);
    f := Filled(b.positions, e.(filled := filled), order, mintable, Some(request), None);
  }

  // Sending a batch

  /** The part of a map at some of its keys. */
  function Restrict<K, V>(m: map<K, V>, keys: set<K>): map<K, V> {
    map k | k in m && k in keys :: m[k]
  }

  lemma NewVolley(positions: Positions, k: AssetKey, p: Position)
    requires k !in positions
    ensures VolleyOf(positions[k := p]) == VolleyOf(positions) + p.volleySize
  {
    var positions' := positions[k := p];
    assert positions'.Keys == positions.Keys + {k};
    SumOverAdd(positions.Keys, VolleyAt(positions'), k);
    SumOverSame(positions.Keys, VolleyAt(positions), VolleyAt(positions'));
  }

  /** The positions of some of the assets. */
  function PartOf(e: EngagedOrders, symbols: set<string>): Positions
    requires Priced(e)
  {
    Restrict(NewPositions(e), set symbol | symbol in symbols :: AssetKey(symbol, Buy))
  }

  lemma PartStep(e: EngagedOrders, symbols: set<string>, symbol: string)
    requires Priced(e) && symbol in e.quantities && symbol !in symbols
    ensures AssetKey(symbol, Buy) !in PartOf(e, symbols)
    ensures PartOf(e, symbols + {symbol}) ==
      PartOf(e, symbols)[AssetKey(symbol, Buy) := NewPosition(e.prices[symbol], e.quantities[symbol])]
  {
  }

  lemma PartEnds(e: EngagedOrders)
    requires Priced(e)
    ensures PartOf(e, {}) == map[] && PartOf(e, e.quantities.Keys) == NewPositions(e)
    ensures VolleyOf(map[]) == 0.0
  {
  }

  /** One position per asset that is bought; the volley is their total value. */
  method AddPositions(e: EngagedOrders) returns (positions: Positions, volley: real)
    requires Priced(e)
    ensures positions == NewPositions(e) && volley == VolleyOf(NewPositions(e))
  {
    hide PartOf, NewPositions, VolleyOf;
    positions, volley := map[], 0.0;
    PartEnds(e);
    var rest := e.quantities.Keys;
    ghost var done := {};
    while rest != {}
      invariant rest <= e.quantities.Keys && done == e.quantities.Keys - rest
      invariant positions == PartOf(e, done) && volley == VolleyOf(positions)
      decreases rest
    {
      var symbol :| symbol in rest;
      var position := NewPosition(e.prices[symbol], e.quantities[symbol]);
      PartStep(e, done, symbol);
      NewVolley(positions, AssetKey(symbol, Buy), position);
      volley := volley + position.volleySize;
      positions := positions[AssetKey(symbol, Buy) := position];
      rest, done := rest - {symbol}, done + {symbol};
    }
    assert done == e.quantities.Keys;
  }

  /** Some of the positions with what is carried in. */
  function PartIn(positions: Positions, carryOvers: CarryOvers, keys: set<AssetKey>): Positions {
    map k | k in positions :: if k in keys && k in carryOvers then CarriedIn(positions[k], carryOvers[k])
        else positions[k]
  }

  lemma PartInStep(positions: Positions, carryOvers: CarryOvers, keys: set<AssetKey>, k: AssetKey)
    requires k in positions && k !in keys
    ensures var part := PartIn(positions, carryOvers, keys);
      && k in part && part[k] == positions[k]
      && PartIn(positions, carryOvers, keys + {k})
           == if k in carryOvers then part[k := CarriedIn(positions[k], carryOvers[k])] else part
    ensures PartIn(positions, carryOvers, positions.Keys) == CarryIn(positions, carryOvers)
  {
  }

  lemma PartInEnds(positions: Positions, carryOvers: CarryOvers)
    ensures PartIn(positions, carryOvers, {}) == positions
    ensures PartIn(positions, carryOvers, positions.Keys) == CarryIn(positions, carryOvers)
  {
  }

  /** Each position takes what earlier batches left of its asset, and is then not ordered again. */
  method CarryInPositions(positions: Positions, carryOvers: CarryOvers)
    returns (positions': Positions, carryOvers': CarryOvers)
    ensures positions' == CarryIn(positions, carryOvers) && carryOvers' == carryOvers - positions.Keys
  {
    hide PartIn, CarryIn, CarriedIn;
    positions', carryOvers' := positions, carryOvers;
    PartInEnds(positions, carryOvers);
    var rest := positions.Keys;
    ghost var keys := {};
    while rest != {}
      invariant rest <= positions.Keys && keys == positions.Keys - rest
      invariant positions' == PartIn(positions, carryOvers, keys)
      invariant carryOvers' == carryOvers - keys
      decreases rest
    {
      var k :| k in rest;
      PartInStep(positions, carryOvers, keys, k);
      if k in carryOvers' {
        positions' := positions'[k := CarriedIn(positions'[k], carryOvers'[k])];
      }
      carryOvers' := carryOvers' - {k};
      rest, keys := rest - {k}, keys + {k};
    }
    assert keys == positions.Keys;
  }

  /** The orders for some of the assets. */
  function PartSent(e: EngagedOrders, carryOvers: CarryOvers, t: real, symbols: set<string>): map<string, AssetOrder>
    requires Priced(e)
  {
    Restrict(ToSend(e, carryOvers, t), symbols)
  }

  lemma PartSentStep(e: EngagedOrders, carryOvers: CarryOvers, t: real, symbols: set<string>, symbol: string)
    requires Priced(e) && symbol in e.quantities && symbol !in symbols
    ensures var part := PartSent(e, carryOvers, t, symbols);
      PartSent(e, carryOvers, t, symbols + {symbol})
        == if AssetKey(symbol, Buy) !in carryOvers && t < e.quantities[symbol]
           then part[symbol := AssetOrder(e.prices[symbol], e.quantities[symbol])] else part
  {
  }

  lemma PartSentEnds(e: EngagedOrders, carryOvers: CarryOvers, t: real)
    requires Priced(e)
    ensures PartSent(e, carryOvers, t, {}) == map[]
    ensures PartSent(e, carryOvers, t, e.quantities.Keys) == ToSend(e, carryOvers, t)
  {
  }

  /** The orders that go to the exchange, without assets carried in and without negligible quantities. */
  method OrdersToSend(e: EngagedOrders, carryOvers: CarryOvers, t: real) returns (orders: map<string, AssetOrder>)
    requires Priced(e)
    ensures orders == ToSend(e, carryOvers, t)
  {
    hide PartSent, ToSend;
    orders := map[];
    PartSentEnds(e, carryOvers, t);
    var rest := e.quantities.Keys;
    ghost var done := {};
    while rest != {}
      invariant rest <= e.quantities.Keys && done == e.quantities.Keys - rest
      invariant orders == PartSent(e, carryOvers, t, done)
      decreases rest
    {
      var symbol :| symbol in rest;
      PartSentStep(e, carryOvers, t, done, symbol);
      if AssetKey(symbol, Buy) !in carryOvers && t < e.quantities[symbol] {
        orders := orders[symbol := AssetOrder(e.prices[symbol], e.quantities[symbol])];
      }
      rest, done := rest - {symbol}, done + {symbol};
    }
    assert done == e.quantities.Keys;
  }

  // Completing a batch

  function PartEmptied(positions: Positions, keys: set<AssetKey>): Positions {
    map k | k in positions :: if k in keys then positions[k].(openLots := LeftBehind(positions[k].openLots))
        else positions[k]
  }

  function PartOut(positions: Positions, carryOvers: CarryOvers, keys: set<AssetKey>): CarryOvers {
    CarryOut(Restrict(positions, keys), carryOvers)
  }

  lemma PartOutStep(positions: Positions, carryOvers: CarryOvers, keys: set<AssetKey>, k: AssetKey)
    requires k in positions && k !in keys
    ensures var part := PartOut(positions, carryOvers, keys);
      && PartOut(positions, carryOvers, keys + {k})
           == (if positions[k].openLots == [] then part
               else
                 var carried := CarriedFrom(positions[k]);
                 part[k := if k in part then MoreCarried(part[k], carried) else carried])
  {
    hide CarriedFrom, MoreCarried;
  }

  lemma PartEmptiedStep(positions: Positions, keys: set<AssetKey>, k: AssetKey)
    requires k in positions && k !in keys
    ensures var part := PartEmptied(positions, keys);
      && k in part && part[k] == positions[k]
      && PartEmptied(positions, keys + {k}) == part[k := positions[k].(openLots := LeftBehind(positions[k].openLots))]
  {
    hide LeftBehind;
  }

  lemma PartOutEnds(positions: Positions, carryOvers: CarryOvers)
    ensures PartEmptied(positions, {}) == positions && PartOut(positions, carryOvers, {}) == carryOvers
    ensures PartEmptied(positions, positions.Keys) == Emptied(positions)
    ensures PartOut(positions, carryOvers, positions.Keys) == CarryOut(positions, carryOvers)
  {
    assert Restrict(positions, positions.Keys) == positions;
  }

  /** Each position hands over what it did not allocate. */
  method CarryOutPositions(positions: Positions, carryOvers: CarryOvers)
    returns (positions': Positions, carryOvers': CarryOvers)
    ensures positions' == Emptied(positions) && carryOvers' == CarryOut(positions, carryOvers)
  {
    hide PartEmptied, PartOut, Emptied, CarryOut, Available, LeftBehind;
    positions', carryOvers' := positions, carryOvers;
    PartOutEnds(positions, carryOvers);
    var rest := positions.Keys;
    ghost var keys := {};
    while rest != {}
      invariant rest <= positions.Keys && keys == positions.Keys - rest
      invariant positions' == PartEmptied(positions, keys) && carryOvers' == PartOut(positions, carryOvers, keys)
      decreases rest
    {
      var k :| k in rest;
      PartOutStep(positions, carryOvers, keys, k);
      PartEmptiedStep(positions, keys, k);
      var carried, left := SplitPosition(positions'[k]);
      positions' := positions'[k := positions'[k].(openLots := left)];
      if carried != [] {
        var more := CarryOver(Available(carried), carried);
        carryOvers' := carryOvers'[k := if k in carryOvers' then MoreCarried(carryOvers'[k], more) else more];
      }
      rest, keys := rest - {k}, keys + {k};
    }
    assert keys == positions.Keys;
  }

  method SplitPosition(p: Position) returns (carried: seq<BatchLot>, left: seq<BatchLot>)
    ensures carried == p.openLots && left == LeftBehind(p.openLots)
  {
    var position := new BatchAssetPosition("", p.openLots, p.closedLots);
    carried := position.CarryOver();
    left := position.openLots;
  }

  /** Orders that are due leave the orders to mint; those that waited long enough become fully mintable. */
  method CollectMints(s: State, now: int, wait: int) returns (due: set<string>, orders: map<string, SolverOrder>)
    ensures due == DueMints(s, now, wait) && orders == Promote(s.orders, due)
  {
    due, orders := {}, s.orders;
    var rest := s.readyMints;
    while rest != {}
      invariant rest <= s.readyMints
      invariant due == set key | key in s.readyMints - rest && key in s.orders && MintDue(s.orders[key], now, wait)
      invariant orders == Promote(s.orders, due)
      decreases rest
    {
      var key :| key in rest;
      if key in s.orders && MintDue(orders[key], now, wait) {
        due, orders := due + {key}, orders[key := orders[key].(status := FullyMintable)];
      }
      rest := rest - {key};
    }
  }

  lemma {:induction false} CarryAllAppend(orders: map<string, SolverOrder>, keys: seq<string>, key: string)
    ensures CarryAll(orders, keys + [key]) ==
      var orders' := CarryAll(orders, keys);
      if key in orders' then orders'[key := Carry(orders'[key])] else orders'
  {
    if keys == [] {
      assert [] + [key] == [key] && [key][1..] == [];
    } else {
      assert (keys + [key])[1..] == keys[1..] + [key];
      CarryAllAppend(if keys[0] in orders then orders[keys[0] := Carry(orders[keys[0]])] else orders, keys[1..], key);
    }
  }

  lemma {:induction false} CarryAllKeepsStatus(orders: map<string, SolverOrder>, keys: seq<string>)
    ensures CarryAll(orders, keys).Keys == orders.Keys
    ensures forall key :: key in orders ==> CarryAll(orders, keys)[key].status == orders[key].status
  {
    if keys != [] {
      CarryAllKeepsStatus(if keys[0] in orders then orders[keys[0] := Carry(orders[keys[0]])] else orders, keys[1..]);
    }
  }

  lemma NothingCarried(orders: map<string, SolverOrder>)
    ensures CarryAll(orders, []) == orders
  {
  }

  lemma SameContinues(orders: map<string, SolverOrder>, orders': map<string, SolverOrder>, key: string)
    requires orders'.Keys == orders.Keys && forall k :: k in orders ==> orders'[k].status == orders[k].status
    ensures key in orders ==> Continues(orders'[key]) == Continues(orders[key])
  {
  }

  /** Orders that can still be filled go on, with the collateral still engaged set aside. */
  method ContinueOrders(es: seq<Engagement>, orders: map<string, SolverOrder>)
    returns (continued: seq<string>, orders': map<string, SolverOrder>)
    ensures continued == Continued(es, orders) && orders' == CarryAll(orders, continued)
  {
    hide CarryAll, Carry, Continues;
    continued, orders' := [], orders;
    NothingCarried(orders);
    var i := 0;
    assert es[0..] == es;
    while i < |es|
      invariant i <= |es|
      invariant Continued(es, orders) == continued + Continued(es[i..], orders)
      invariant orders' == CarryAll(orders, continued)
    {
      var key := es[i].order;
      assert es[i..][0] == es[i] && es[i..][1..] == es[i + 1..];
      CarryAllKeepsStatus(orders, continued);
      SameContinues(orders, orders', key);
      assert continued + ([key] + Continued(es[i + 1..], orders)) == continued + [key] + Continued(es[i + 1..], orders);
      if key in orders' && Continues(orders'[key]) {
        CarryAllAppend(orders, continued, key);
        continued, orders' := continued + [key], orders'[key := Carry(orders'[key])];
      }
      i := i + 1;
    }
  }

  // The manager

  class Manager {
    var batches: map<string, Batch>
    var engagements: map<string, EngagedOrders>
    var readyBatches: seq<string>
    var carryOvers: CarryOvers
    var readyMints: set<string>
    var totalVolleySize: real
    var orders: map<string, SolverOrder>
    var outbox: seq<Message>
    const config: Config

    function Content(): State
      reads this
    {
      State(batches, engagements, readyBatches, carryOvers, readyMints, totalVolleySize, orders, outbox)
    }

    constructor (config: Config)
      ensures Content() == NOTHING && this.config == config
    {
      this.config := config;
      batches, engagements, readyBatches, carryOvers := map[], map[], [], map[];
      readyMints, totalVolleySize, orders, outbox := {}, 0.0, map[], [];
    }

    /** Fills one engaged order from its batch as far as every asset allows. */
    method FillIndexOrder(id: string, i: nat) returns (ok: bool)
      requires CanFill(Content(), id, i)
      modifies this
      ensures var f := FillOf(old(Content()), id, i, config.th);
        Content() == AfterFill(old(Content()), id, i, f) && ok == f.error.None?
    {
      hide BasketRate, AllocateBasket;
      var e := engagements[id].orders[i];
      var o := orders[e.order];
      if o.status.FullyMintable? {
        Unchanged(Content(), id, i, None);
        return true;
      } else if !o.status.Engaged? && !o.status.PartlyMintable? {
        Unchanged(Content(), id, i, Some(InvalidState));
        return false;
      }
      var rate := ComputeFillRate(e.basket, o.side, batches[id].positions, e);
      if rate.NoRate? {
        Unchanged(Content(), id, i, Some(rate.error));
        return false;
      }
      var filled := FilledAt(e, rate.r);
      var delta := filled - e.filled;
      if delta < config.th.zero {
        Unchanged(Content(), id, i, None);
        return true;
      }
      var b := AllocateAssets(e.basket, o.side, batches[id].positions, delta, config.th.zero);
      var f := CreditOrder(b, e, o, filled, batches[id].timestamp, config.th);
      var es := engagements[id];
      batches := batches[id := batches[id].(positions := f.positions)];
      engagements := engagements[id := es.(orders := es.orders[i := f.engagement])];
      orders := orders[e.order := f.order];
      if f.mintable {
        readyMints := readyMints + {e.order};
      }
      outbox := outbox + if f.request.Some? then [Message.Fill(f.request.value)] else [];
      ok := f.error.None?;
    }

    lemma Unchanged(s: State, id: string, i: nat, error: Option<FillError>)
      requires CanFill(s, id, i)
      ensures var e := s.engagements[id].orders[i];
        AfterFill(s, id, i, Filled(s.batches[id].positions, e, s.orders[e.order], false, None, error)) == s
    {
      var es := s.engagements[id];
      assert es.(orders := es.orders[i := es.orders[i]]) == es;
      assert s.outbox + [] == s.outbox;
    }

    /** Fills the batch's engaged orders in turn. */
    method FillBatchOrders(id: string) returns (answer: Answer)
      modifies this
      ensures (Content(), answer) == FillFrom(old(Content()), id, 0, config.th)
    {
      hide FillOf;
      if id !in engagements {
        return Failed;
      }
      var i := 0;
      while CanFill(Content(), id, i)
        invariant id in engagements
        invariant FillFrom(old(Content()), id, 0, config.th) == FillFrom(Content(), id, i, config.th)
        decreases |engagements[id].orders| - i
      {
        var ok := FillIndexOrder(id, i);
        if !ok {
          return Failed;
        }
        i := i + 1;
      }
      answer := Done;
    }

    method HandleNewEngagement(id: string, e: EngagedOrders) returns (answer: Answer)
      modifies this
      ensures (Content(), answer) == NewEngagement(old(Content()), id, e)
    {
      if id in engagements {
        return Failed;
      }
      engagements := engagements[id := e];
      answer := Done;
    }

    /** The order manager's answer for each order of the batch, which is then ready to be sent. */
    method HandleEngageIndexOrder(id: string, confirmations: map<string, Confirmation>, now: int)
      requires id in engagements
      modifies this
      ensures Content() == EngageOrders(old(Content()), id, confirmations, now)
    {
      hide Engage;
      var i := 0;
      while i < |engagements[id].orders|
        invariant id in engagements && |engagements[id].orders| == old(|engagements[id].orders|)
        invariant i <= |engagements[id].orders|
        invariant EngageFrom(old(Content()), id, 0, confirmations, now)
               == EngageFrom(Content(), id, i, confirmations, now)
      {
        var es := engagements[id];
        var e := es.orders[i];
        if e.order in orders {
          if e.order in confirmations {
            var o := Engage(orders[e.order], confirmations[e.order], now);
            orders := orders[e.order := o];
            engagements := engagements[id := es.(orders := es.orders[i := e.(collateral := o.engaged)])];
          } else {
            assert es.(orders := es.orders[i := e]) == es && engagements[id := es] == engagements;
            orders := orders[e.order := orders[e.order].(status := InvalidOrder)];
          }
        }
        i := i + 1;
      }
      readyBatches := readyBatches + [id];
    }

    method SendBatch(id: string, now: int) returns (answer: Answer)
      modifies this
      ensures (Content(), answer) == BatchManagerSpec.SendBatch(old(Content()), id, now, config)
    {
      hide NewPositions, CarryIn, VolleyOf, ToSend, AllCancelled;
      if id !in engagements || engagements[id].orders == [] || !Priced(engagements[id]) {
        return Failed;
      }
      var e := engagements[id];
      var toSend := OrdersToSend(e, carryOvers, config.th.zero);
      var positions, volley := AddPositions(e);
      positions, carryOvers := CarryInPositions(positions, carryOvers);
      totalVolleySize := totalVolleySize + volley;
      var duplicate := id in batches;
      batches := batches[id := Batch(positions, volley, 0.0, 0.0, 0.0, 0.0, AllCancelled(positions), now)];
      assert outbox + [] == outbox;
      if duplicate {
        return Failed;
      }
      if toSend != map[] {
        outbox := outbox + [SendOrders(id, toSend)];
      }
      answer := Done;
    }

    /** What the batch did not allocate is carried over, orders that are due are published, the others go on. */
    method CompleteBatch(id: string, now: int) returns (answer: Answer)
      requires id in batches
      modifies this
      ensures (Content(), answer) == Complete(old(Content()), id, now, config)
    {
      hide Emptied, CarryOut, DueMints, Promote, Continued, CarryAll;
      var b := batches[id];
      var positions;
      positions, carryOvers := CarryOutPositions(b.positions, carryOvers);
      batches := batches[id := b.(positions := positions)];
      if id !in engagements {
        return Failed;
      }
      DueOf(old(Content()), Content(), now, config.mintWait);
      var due, promoted := CollectMints(Content(), now, config.mintWait);
      readyMints := readyMints - due;
      var continued;
      continued, orders := ContinueOrders(engagements[id].orders, promoted);
      totalVolleySize := totalVolleySize - b.volleySize;
      outbox := outbox + (if due != {} then [BatchMintable(due)] else []) + [BatchComplete(id, continued)];
      answer := Done;
    }

    lemma DueOf(s: State, s': State, now: int, wait: int)
      requires s'.readyMints == s.readyMints && s'.orders == s.orders
      ensures DueMints(s', now, wait) == DueMints(s, now, wait)
    {
    }

    method HandleNewLot(id: string, k: AssetKey, x: Execution, now: int) returns (answer: Answer)
      modifies this
      ensures (Content(), answer) == BatchManagerSpec.HandleNewLot(old(Content()), id, k, x, now, config)
    {
      hide FillFrom;
      if id !in batches {
        return Failed;
      }
      var u := UpdateBatch(batches[id], k, x, now);
      batches := batches[id := u.batch];
      if !u.ok {
        return Failed;
      }
      answer := FillBatchOrders(id);
    }

    method HandleCancelOrder(
        id: string, k: AssetKey, quantity: real, cancelled: bool, now: int) returns (answer: Answer)
      modifies this
      ensures (Content(), answer) ==
        BatchManagerSpec.HandleCancelOrder(old(Content()), id, k, quantity, cancelled, now, config)
    {
      hide Complete;
      if id !in batches || k !in batches[id].positions {
        return Failed;
      }
      var b := CancelAsset(batches[id], k, quantity, cancelled);
      batches := batches[id := b];
      if !b.cancelled {
        return Done;
      }
      answer := CompleteBatch(id, now);
    }

    /** The first fill of a sent batch. */
    method InternalFill(id: string, now: int) returns (answer: Answer)
      modifies this
      ensures (Content(), answer) == FirstFill(old(Content()), id, now, config)
    {
      hide FillFrom, Complete;
      answer := FillBatchOrders(id);
      if answer.Done? && id in batches && batches[id].cancelled {
        answer := CompleteBatch(id, now);
      }
    }

    /** Sends ready batches; those that were sent get their first fill. */
    method SendMoreBatches(now: int) returns (ok: bool)
      modifies this
      ensures var s := old(Content());
        var n := if |s.readyBatches| < config.maxBatchSize then |s.readyBatches| else config.maxBatchSize;
        var sending := SendAll(s.(readyBatches := s.readyBatches[n..]), s.readyBatches[..n], now, config);
        var filled := FirstFillAll(sending.s, sending.sent, now, config);
        Content() == filled.0 && ok == (sending.ok && filled.1.Done?)
    {
      var n := if |readyBatches| < config.maxBatchSize then |readyBatches| else config.maxBatchSize;
      var ids := readyBatches[..n];
      readyBatches := readyBatches[n..];
      var sent, allSent := SendEach(ids, now);
      var filled := FillEach(sent, now);
      ok := allSent && filled.Done?;
    }

    method SendEach(ids: seq<string>, now: int) returns (sent: seq<string>, ok: bool)
      modifies this
      ensures Sending(Content(), sent, ok) == SendAll(old(Content()), ids, now, config)
    {
      hide BatchManagerSpec.SendBatch;
      sent, ok := [], true;
      var i := 0;
      assert ids[0..] == ids;
      while i < |ids|
        invariant i <= |ids|
        invariant var rest := SendAll(Content(), ids[i..], now, config);
          SendAll(old(Content()), ids, now, config) == Sending(rest.s, sent + rest.sent, ok && rest.ok)
      {
        assert ids[i..][0] == ids[i] && ids[i..][1..] == ids[i + 1..];
        if ids[i] in engagements {
          var answer := SendBatch(ids[i], now);
          if answer.Done? {
            assert forall rest: seq<string> :: sent + ([ids[i]] + rest) == sent + [ids[i]] + rest;
            sent := sent + [ids[i]];
          } else {
            ok := false;
          }
        }
        i := i + 1;
      }
    }

    method FillEach(ids: seq<string>, now: int) returns (answer: Answer)
      modifies this
      ensures (Content(), answer) == FirstFillAll(old(Content()), ids, now, config)
    {
      hide FirstFill;
      answer := Done;
      var i := 0;
      assert ids[0..] == ids;
      while i < |ids|
        invariant i <= |ids|
        invariant var rest := FirstFillAll(Content(), ids[i..], now, config);
          FirstFillAll(old(Content()), ids, now, config) == (rest.0, if answer.Failed? then Failed else rest.1)
      {
        assert ids[i..][0] == ids[i] && ids[i..][1..] == ids[i + 1..];
        var filled := InternalFill(ids[i], now);
        if filled.Failed? {
          answer := Failed;
        }
        i := i + 1;
      }
    }

    /** Completed batches are dropped with their engagements. */
    method CleanupBatches()
      modifies this
      ensures Content() == Cleanup(old(Content()))
    {
      hide Dropped;
      ghost var s := Content();
      DroppedEnds(s);
      var ids := batches.Keys;
      assert s.batches.Keys - ids == {};
      while ids != {}
        invariant ids <= s.batches.Keys && ids <= batches.Keys
        invariant Content() == Dropped(s, s.batches.Keys - ids)
        decreases ids
      {
        var id :| id in ids;
        DroppedStep(s, s.batches.Keys - ids, id);
        assert s.batches.Keys - ids + {id} == s.batches.Keys - (ids - {id});
        if batches[id].cancelled {
          batches, engagements := batches - {id}, engagements - {id};
        }
        ids := ids - {id};
      }
      assert s.batches.Keys - ids == s.batches.Keys;
    }

    static function Dropped(s: State, ids: set<string>): State {
      var gone := set id | id in s.batches && id in ids && s.batches[id].cancelled;
      s.(batches := s.batches - gone, engagements := s.engagements - gone)
    }

    static lemma DroppedStep(s: State, ids: set<string>, id: string)
      requires id in s.batches && id !in ids
      ensures var d := Dropped(s, ids);
        && id in d.batches && d.batches[id] == s.batches[id]
        && Dropped(s, ids + {id}) ==
             if s.batches[id].cancelled then d.(batches := d.batches - {id}, engagements := d.engagements - {id}) else d
    {
    }

    static lemma DroppedEnds(s: State)
      ensures Dropped(s, {}) == s && Dropped(s, s.batches.Keys) == Cleanup(s)
    {
    }

    /** None is the error return; otherwise the number of batches still active. */
    method ProcessBatches(now: int) returns (active: Option<nat>)
      modifies this
      ensures var r := BatchManagerSpec.ProcessBatches(old(Content()), now, config);
        Content() == r.0 && active == if r.1.Failed? then None else Some(|r.0.batches|)
    {
      hide SendAll, FirstFillAll, Cleanup;
      var ok := SendMoreBatches(now);
      if !ok {
        return None;
      }
      CleanupBatches();
      active := Some(|batches|);
    }
  }
}
