/** What the batch manager tells the exchange and the solver, and when: orders as a batch is sent, mintable and
    continuing orders as it completes. */
module BatchMessages {
  import opened Common
  import opened BatchLots
  import opened BatchFillSpec
  import opened BatchManagerSpec
  import opened BatchRuns
  import opened BatchVolley
  import BatchMints

  // Sending

  /** The position of an asset in a new batch, filled with what was carried over if anything was. */
  predicate Opens(p: Position, e: EngagedOrders, symbol: string, carryOvers: CarryOvers)
    requires Priced(e) && symbol in e.quantities
  {
    var k := AssetKey(symbol, Buy);
    && p.orderQuantity == e.quantities[symbol]
    && p.volleySize == e.prices[symbol] * p.orderQuantity
    && (p.cancelled <==> k in carryOvers)
    && (if k in carryOvers then p.openLots == carryOvers[k].lots && p.quantity == carryOvers[k].quantity
        else p.openLots == [] && p.quantity == 0.0)
    && p.closedLots == [] && p.realizedValue == 0.0 && p.fee == 0.0 && p.quantityCancelled == 0.0
  }

  /** What a successful send adds to the state. */
  lemma SendAdds(s: State, id: string, now: int, c: Config)
    requires SendBatch(s, id, now, c).1.Done?
    ensures id in s.engagements && id !in s.batches && s.engagements[id].orders != [] && Priced(s.engagements[id])
    ensures var s' := SendBatch(s, id, now, c).0; var e := s.engagements[id];
      var b := NewBatch(e, s.carryOvers, now); var orders := ToSend(e, s.carryOvers, c.th.zero);
      s' == s.(batches := s.batches[id := b], carryOvers := s.carryOvers - NewPositions(e).Keys,
               totalVolley := s.totalVolley + b.volleySize,
               outbox := s.outbox + if orders == map[] then [] else [SendOrders(id, orders)])
  {
    hide NewBatch, NewPositions, ToSend, Priced;
  }

  lemma NewBatchOpens(e: EngagedOrders, carryOvers: CarryOvers, now: int)
    requires Priced(e)
    ensures var b := NewBatch(e, carryOvers, now);
      && b.positions.Keys == NewPositions(e).Keys
      && (forall k :: k in b.positions <==> k.side == Buy && k.symbol in e.quantities)
      && (forall symbol :: symbol in e.quantities ==> Opens(b.positions[AssetKey(symbol, Buy)], e, symbol, carryOvers))
      && (b.cancelled <==> b.positions.Keys <= carryOvers.Keys)
      && b.filledVolley == b.filledFraction == b.realizedValue == b.fee == 0.0 && b.timestamp == now
  {
    hide VolleyOf;
    var b := NewBatch(e, carryOvers, now);
    if b.positions.Keys <= carryOvers.Keys {
      forall k | k in b.positions ensures b.positions[k].cancelled {
        assert k in b.positions.Keys;
      }
    }
  }

  lemma NewBatchVolley(e: EngagedOrders, carryOvers: CarryOvers, now: int)
    requires Priced(e)
    ensures var b := NewBatch(e, carryOvers, now); b.volleySize == VolleyOf(b.positions)
  {
    hide VolleyOf, AllCancelled;
    var b := NewBatch(e, carryOvers, now);
    assert SamePositions(NewPositions(e), b.positions);
    SameVolleyOf(NewPositions(e), b.positions);
  }

  /** A batch is sent with one position for each asset, and whatever is carried in leaves the carry-overs. */
  lemma SendOpens(s: State, id: string, now: int, c: Config)
    requires SendBatch(s, id, now, c).1.Done?
    ensures id in s.engagements && id !in s.batches && s.engagements[id].orders != [] && Priced(s.engagements[id])
    ensures var s' := SendBatch(s, id, now, c).0; var e := s.engagements[id];
      && id in s'.batches && var b := s'.batches[id];
      && s' == s.(batches := s.batches[id := b], carryOvers := s.carryOvers - b.positions.Keys,
                  totalVolley := s.totalVolley + b.volleySize, outbox := s'.outbox)
      && (forall k :: k in b.positions <==> k.side == Buy && k.symbol in e.quantities)
      && (forall symbol :: symbol in e.quantities ==>
            Opens(b.positions[AssetKey(symbol, Buy)], e, symbol, s.carryOvers))
      && b.volleySize == VolleyOf(b.positions)
      && (b.cancelled <==> b.positions.Keys <= s.carryOvers.Keys)
      && b.filledVolley == b.filledFraction == b.realizedValue == b.fee == 0.0 && b.timestamp == now
  {
    SendAdds(s, id, now, c);
    NewBatchOpens(s.engagements[id], s.carryOvers, now);
    NewBatchVolley(s.engagements[id], s.carryOvers, now);
    hide SendBatch, NewBatch, NewPositions, VolleyOf, ToSend, Priced, Opens;
  }

  /** A second batch under the same ID is an error, but it has taken the place of the first and what was carried
      over. */
  lemma SecondSendReplaces(s: State, id: string, now: int, c: Config)
    requires id in s.engagements && s.engagements[id].orders != [] && Priced(s.engagements[id]) && id in s.batches
    ensures var r := SendBatch(s, id, now, c); var e := s.engagements[id];
      && r.1.Failed? && r.0.outbox == s.outbox
      && id in r.0.batches && var b := r.0.batches[id];
      && r.0 == s.(batches := s.batches[id := b], carryOvers := s.carryOvers - b.positions.Keys,
                   totalVolley := s.totalVolley + b.volleySize)
      && (forall k :: k in b.positions <==> k.side == Buy && k.symbol in e.quantities)
      && (forall symbol :: symbol in e.quantities ==>
            Opens(b.positions[AssetKey(symbol, Buy)], e, symbol, s.carryOvers))
  {
    hide Priced, Opens;
    NewBatchOpens(s.engagements[id], s.carryOvers, now);
    hide NewBatch, NewPositions, ToSend;
  }

  /** So the orders of a batch ask for what its positions wait for, if that is worth asking for. */
  ghost predicate AsksFor(orders: map<string, AssetOrder>, positions: Positions, e: EngagedOrders, t: real) {
    && (forall symbol :: symbol in orders <==>
          var k := AssetKey(symbol, Buy);
          k in positions && !positions[k].cancelled && t < positions[k].orderQuantity)
    && forall symbol :: symbol in orders ==>
         && orders[symbol].quantity == positions[AssetKey(symbol, Buy)].orderQuantity
         && symbol in e.prices && orders[symbol].price == e.prices[symbol]
  }

  lemma SentAsksFor(e: EngagedOrders, carryOvers: CarryOvers, now: int, t: real)
    requires Priced(e)
    ensures AsksFor(ToSend(e, carryOvers, t), NewBatch(e, carryOvers, now).positions, e, t)
  {
    hide VolleyOf, AllCancelled;
  }

  /** An asset is ordered exactly when its position waits for executions worth waiting for, and for just the quantity
      that the position counts on. */
  lemma SendTells(s: State, id: string, now: int, c: Config) returns (orders: map<string, AssetOrder>)
    requires SendBatch(s, id, now, c).1.Done?
    ensures var s' := SendBatch(s, id, now, c).0;
      && id in s.engagements && id in s'.batches
      && s'.outbox == s.outbox + (if orders == map[] then [] else [SendOrders(id, orders)])
      && AsksFor(orders, s'.batches[id].positions, s.engagements[id], c.th.zero)
  {
    SendAdds(s, id, now, c);
    hide SendBatch, NewBatch, NewPositions, ToSend, Priced, AsksFor;
    orders := ToSend(s.engagements[id], s.carryOvers, c.th.zero);
    SentAsksFor(s.engagements[id], s.carryOvers, now, c.th.zero);
  }

  /** Executions of everything that was ordered fill the whole volley, if nothing was left out of the order. */
  lemma CompletedOrdersFillTheBatch(steps: seq<Step>, c: Config, id: string)
    requires SentOnce(steps, c) && id in Run(steps, c).batches && Run(steps, c).batches[id].volleySize != 0.0
    requires forall k :: k in Run(steps, c).batches[id].positions ==>
      var p := Run(steps, c).batches[id].positions[k];
      p.orderQuantity != 0.0 && Executed(steps, c, id, k) == p.orderQuantity
    ensures Run(steps, c).batches[id].filledFraction == 1.0
  {
    hide Run, Executed, SentOnce;
    var b := Run(steps, c).batches[id];
    FilledVolleyIsExecuted(steps, c, id);
    forall k | k in b.positions ensures FilledShare(b.positions, steps, c, id)(k) == VolleyAt(b.positions)(k) {
      WholeShare(b.positions[k].orderQuantity, b.positions[k].volleySize);
    }
    SumOverSame(b.positions.Keys, FilledShare(b.positions, steps, c, id), VolleyAt(b.positions));
    WholeShare(b.volleySize, 1.0);
  }

  lemma WholeShare(quantity: real, volley: real)
    requires quantity != 0.0
    ensures quantity / quantity * volley == volley
  {
    assert quantity / quantity == 1.0;
  }

  // Completing

  /** An order that goes on to the next batch. */
  predicate GoesOn(orders: map<string, SolverOrder>, key: string) {
    key in orders && (orders[key].status.Engaged? || orders[key].status.PartlyMintable?)
  }

  /** Waiting orders are due once they are fully mintable, or partly mintable and not filled any more since the wait. */
  predicate IsDue(s: State, key: string, now: int, wait: int) {
    && key in s.readyMints && key in s.orders
    && var o := s.orders[key];
       o.status.FullyMintable? || (o.status.PartlyMintable? && o.timestamp <= now - wait)
  }

  /** The continuing keys stand at increasing places of the engagement, and at all places of orders that go on. */
  ghost predicate Selects(es: seq<Engagement>, orders: map<string, SolverOrder>, keys: seq<string>, places: seq<nat>) {
    SelectsFrom(es, orders, keys, places, 0)
  }

  ghost predicate SelectsFrom(
      es: seq<Engagement>, orders: map<string, SolverOrder>, keys: seq<string>, places: seq<nat>, first: nat)
  {
    && |places| == |keys| && Rises(places, first)
    && (forall i :: 0 <= i < |places| ==> StandsAt(es, orders, keys[i], places[i]))
    && (forall j :: first <= j < |es| && GoesOn(orders, es[j].order) ==> j in places)
  }

  predicate StandsAt(es: seq<Engagement>, orders: map<string, SolverOrder>, key: string, place: nat) {
    place < |es| && es[place].order == key && GoesOn(orders, key)
  }

  predicate Rises(places: seq<nat>, first: nat) {
    && (forall i :: 0 <= i < |places| ==> first <= places[i])
    && (forall i, j :: 0 <= i < j < |places| ==> places[i] < places[j])
  }

  lemma {:induction false} ContinuedSelects(es: seq<Engagement>, orders: map<string, SolverOrder>, first: nat)
    returns (places: seq<nat>)
    requires first <= |es|
    ensures SelectsFrom(es, orders, Continued(es[first..], orders), places, first)
    decreases |es| - first
  {
    places := [];
    if first < |es| {
      hide GoesOn, SelectsFrom;
      var later := ContinuedSelects(es, orders, first + 1);
      NextContinued(es, orders, first);
      places := if GoesOn(orders, es[first].order) then [first] + later else later;
      SelectsMore(es, orders, Continued(es[first + 1..], orders), later, first);
    }
  }

  lemma SelectsMore(
      es: seq<Engagement>, orders: map<string, SolverOrder>, keys: seq<string>, later: seq<nat>, first: nat)
    requires first < |es| && SelectsFrom(es, orders, keys, later, first + 1)
    ensures if GoesOn(orders, es[first].order)
      then SelectsFrom(es, orders, [es[first].order] + keys, [first] + later, first)
      else SelectsFrom(es, orders, keys, later, first)
  {
    hide GoesOn, StandsAt, Rises;
    PlacesRise(first, later);
    StandsFirst(es, orders, first);
  }

  lemma NextContinued(es: seq<Engagement>, orders: map<string, SolverOrder>, first: nat)
    requires first < |es|
    ensures Continued(es[first..], orders) ==
      (if GoesOn(orders, es[first].order) then [es[first].order] else []) + Continued(es[first + 1..], orders)
  {
    assert es[first..][1..] == es[first + 1..];
  }

  lemma StandsFirst(es: seq<Engagement>, orders: map<string, SolverOrder>, first: nat)
    requires first < |es|
    ensures StandsAt(es, orders, es[first].order, first) <==> GoesOn(orders, es[first].order)
  {
  }

  lemma PlacesRise(first: nat, later: seq<nat>)
    requires Rises(later, first + 1)
    ensures Rises(later, first) && Rises([first] + later, first)
  {
  }

  /** What completing makes of one order. */
  predicate CompletedOrder(o: SolverOrder, o': SolverOrder, due: bool, continues: bool) {
    && o' == o.(status := if due then FullyMintable else o.status,
                carried := if continues then o.engaged else o.carried,
                engaged := if continues then 0.0 else o.engaged)
  }

  /** The orders after a completion: due ones are promoted, continuing ones carried. */
  lemma CarriesContinued(es: seq<Engagement>, orders: map<string, SolverOrder>, mints: set<string>)
    returns (places: seq<nat>)
    ensures var promoted := Promote(orders, mints); var continued := Continued(es, promoted);
      var orders' := CarryAll(promoted, continued);
      && orders'.Keys == orders.Keys
      && Selects(es, orders', continued, places)
      && (DistinctOrders(es) ==>
            forall key :: key in orders ==>
              CompletedOrder(orders[key], orders'[key], key in mints, key in continued))
  {
    var promoted := Promote(orders, mints);
    var continued := Continued(es, promoted);
    places := ContinuedSelects(es, promoted, 0);
    assert es[0..] == es;
    assert Selects(es, promoted, continued, places);
    hide Continued, Selects, SelectsFrom, DistinctOrders, CarryAll;
    CarryAllOnlyCarries(promoted, continued);
    SameGoOn(es, promoted, CarryAll(promoted, continued), continued, places);
    if DistinctOrders(es) {
      forall key | key in orders
        ensures CompletedOrder(orders[key], CarryAll(promoted, continued)[key], key in mints, key in continued)
      {
        ContinuedOnce(es, promoted);
        if key in continued { CarryAllCarriesOnce(promoted, continued, key); }
      }
    }
  }

  /** A completion publishes the orders that became due, as fully mintable ones, and last of all the orders of the batch
      that go on, in the batch's order. Exactly these have their engaged collateral set aside for the next batch. */
  lemma CompletionTells(s: State, id: string, now: int, c: Config)
    returns (mints: set<string>, continued: seq<string>, places: seq<nat>)
    requires id in s.batches && id in s.engagements
    ensures Complete(s, id, now, c).1.Done?
    ensures var s' := Complete(s, id, now, c).0; var es := s.engagements[id].orders;
      && s'.outbox == s.outbox + (if mints == {} then [] else [BatchMintable(mints)]) + [BatchComplete(id, continued)]
      && mints == s.readyMints - s'.readyMints && s'.readyMints <= s.readyMints
      && (forall key :: key in mints <==> IsDue(s, key, now, c.mintWait))
      && s'.orders.Keys == s.orders.Keys
      && Selects(es, s'.orders, continued, places)
      && (DistinctOrders(es) ==>
            forall key :: key in s.orders ==>
              CompletedOrder(s.orders[key], s'.orders[key], key in mints, key in continued))
      && s'.totalVolley == s.totalVolley - s.batches[id].volleySize
  {
    mints := DueMints(s, now, c.mintWait);
    hide Promote, Continued, CarryAll, Selects, CompletedOrder, DistinctOrders, CarryOut, Emptied;
    continued := Continued(s.engagements[id].orders, Promote(s.orders, mints));
    places := CarriesContinued(s.engagements[id].orders, s.orders, mints);
  }

  lemma SameGoOn(
      es: seq<Engagement>, orders: map<string, SolverOrder>, orders': map<string, SolverOrder>, keys: seq<string>,
      places: seq<nat>)
    requires Selects(es, orders, keys, places) && orders'.Keys == orders.Keys
    requires forall key :: key in orders ==> orders'[key].status == orders[key].status
    ensures Selects(es, orders', keys, places)
  {
    assert forall key :: GoesOn(orders', key) <==> GoesOn(orders, key);
  }

  /** A batch without an engagement completes with nothing said and no order changed. */
  lemma UnknownCompletionTellsNothing(s: State, id: string, now: int, c: Config)
    requires id in s.batches && id !in s.engagements
    ensures var r := Complete(s, id, now, c);
      r.1.Failed? && r.0.outbox == s.outbox && r.0.orders == s.orders && r.0.readyMints == s.readyMints
  {
  }

  /** What a completed batch did not allocate is added, lot by lot and in order, to what earlier batches left. */
  lemma CompletionCarries(s: State, id: string, now: int, c: Config, k: AssetKey)
    requires id in s.batches
    ensures var s' := Complete(s, id, now, c).0; var positions := s.batches[id].positions;
      var lots := if k in positions then positions[k].openLots else [];
      var before := if k in s.carryOvers then s.carryOvers[k] else CarryOver(0.0, []);
      && (k in s'.carryOvers <==> k in s.carryOvers || lots != [])
      && (k in s'.carryOvers ==>
            s'.carryOvers[k].lots == before.lots + lots
            && s'.carryOvers[k].quantity == before.quantity + Available(lots))
      && id in s'.batches && s'.batches == s.batches[id := s'.batches[id]]
      && s'.batches[id] == s.batches[id].(positions := s'.batches[id].positions)
      && s'.batches[id].positions.Keys == positions.Keys
      && (k in positions ==>
            s'.batches[id].positions[k] == positions[k].(
              openLots := if lots == [] then [] else [lots[0].(remaining := 0.0)]))
  {
    hide DueMints, Promote, Continued, CarryAll;
    CarriesOut(s.batches[id].positions, s.carryOvers, k);
    hide CarryOut;
  }

  lemma CarriesOut(positions: Positions, carryOvers: CarryOvers, k: AssetKey)
    ensures var carried := CarryOut(positions, carryOvers);
      var lots := if k in positions then positions[k].openLots else [];
      var before := if k in carryOvers then carryOvers[k] else CarryOver(0.0, []);
      && (k in carried <==> k in carryOvers || lots != [])
      && (k in carried ==>
            carried[k].lots == before.lots + lots && carried[k].quantity == before.quantity + Available(lots))
  {
  }

  /** On a run whose orders are changed as expected, no fully mintable order outlives a completion unpublished. */
  lemma FullyMintableIsPublished(steps: seq<Step>, c: Config, id: string, now: int, key: string)
    requires BatchMints.FitRun(steps, c) && c.th.mint <= c.th.fill
    requires id in Run(steps, c).batches && id in Run(steps, c).engagements
    requires key in Run(steps, c).orders && Run(steps, c).orders[key].status.FullyMintable?
    requires key !in BatchMints.Published(steps, c)
    ensures var s := Run(steps, c); var s' := Complete(s, id, now, c).0;
      exists mints :: key in mints && BatchMintable(mints) in s'.outbox[|s.outbox|..]
  {
    hide Run, Complete, BatchMints.FitRun, BatchMints.Published;
    BatchMints.MintableOrdersAreSafe(steps, c);
    var s := Run(steps, c);
    assert BatchMints.KeptSafe(s.orders[key], key in s.readyMints, key in BatchMints.Published(steps, c));
    var mints, continued, places := CompletionTells(s, id, now, c);
    assert IsDue(s, key, now, c.mintWait);
    assert key in mints && Complete(s, id, now, c).0.outbox[|s.outbox|] == BatchMintable(mints);
  }
}
