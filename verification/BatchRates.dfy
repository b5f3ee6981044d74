/** An order's collateral is only moved around, but for what was handed out late, and what is spent stays spent. */
module BatchRates {
  import opened Common
  import opened BatchLots
  import opened BatchFillSpec
  import opened BatchFillTheory
  import opened BatchManagerSpec
  import opened BatchRuns

  /** All of an order's collateral. */
  function Worth(o: SolverOrder): real { o.spent + o.remaining + o.engaged + o.carried }

  /** Nothing gained or lost but for so much, and nothing unspent. */
  predicate AdvancesBy(o: SolverOrder, o': SolverOrder, gained: real) {
    Worth(o') == Worth(o) + gained && o.spent <= o'.spent
  }

  predicate Advances(o: SolverOrder, o': SolverOrder) {
    AdvancesBy(o, o', 0.0)
  }

  /** Lots bought for a nonnegative price and fee. */
  ghost predicate Bought(open: seq<BatchLot>) {
    Usable(open) && forall l :: l in open ==> 0.0 <= l.price && 0.0 <= l.fee
  }

  ghost predicate BoughtPositions(positions: Positions) {
    forall k :: k in positions ==> Bought(positions[k].openLots)
  }

  lemma AllocationCosts(open: seq<BatchLot>, closed: seq<BatchLot>, symbol: string, quantity: real, t: real)
    requires t == 0.0 && Bought(open) && 0.0 <= quantity
    ensures var a := Allocate(open, closed, symbol, quantity, t);
      Bought(a.open) && 0.0 <= SumBy(a.lots, CostOf)
  {
    hide Allocate, CostOf;
    AllocationNonNegative(open, closed, symbol, quantity, t);
    AllocationLeft(open, closed, symbol, quantity, t);
    SumByNonNegative(Allocate(open, closed, symbol, quantity, t).lots, CostOf);
  }

  lemma QuantityNonNegative(q: real, delta: real)
    requires 0.0 <= q && 0.0 <= delta
    ensures 0.0 <= q * delta
  {
  }

  lemma {:induction false} BasketCosts(basket: seq<BasketAsset>, side: Side, positions: Positions, delta: real, t: real)
    requires t == 0.0 && BoughtPositions(positions) && 0.0 <= delta
    requires forall a :: a in basket ==> 0.0 <= a.quantity
    ensures var b := AllocateBasket(basket, side, positions, delta, t);
      BoughtPositions(b.positions) && 0.0 <= b.spent
  {
    hide Bought, Allocate;
    if basket != [] {
      var key := AssetKey(basket[0].symbol, side);
      if key in positions {
        var p := positions[key];
        assert basket[0] in basket;
        QuantityNonNegative(basket[0].quantity, delta);
        AllocationCosts(p.openLots, p.closedLots, key.symbol, Asked(basket[0], delta), t);
        var a := Allocate(p.openLots, p.closedLots, key.symbol, Asked(basket[0], delta), t);
        if a.ok && a.left <= t {
          BasketCosts(basket[1..], side, positions[key := p.(openLots := a.open, closedLots := a.closed)], delta, t);
        }
      }
    }
  }

  /** Without a tolerance, a fill only moves engaged collateral to spent, even when it fails; what it reports is the
      spent share of what was not carried over. */
  lemma FillAdvances(positions: Positions, e: Engagement, o: SolverOrder, now: int, th: Thresholds)
    requires th.zero == 0.0 && BoughtPositions(positions) && EngagementOk(e)
    ensures var f := FillIndexOrder(positions, e, o, now, th);
      && BoughtPositions(f.positions)
      && f.engagement == e.(filled := f.engagement.filled)
      && Advances(o, f.order) && f.order.carried == o.carried
      && (f.request.Some? ==>
            Worth(o) != o.carried && f.request.value.rate == f.order.spent / (Worth(o) - o.carried))
  {
    hide BasketRate, FilledAt, AllocateBasket, BoughtPositions;
    var rate := BasketRate(e.basket, o.side, positions, e);
    if rate.Rate? && FilledAt(e, rate.r) - e.filled >= th.zero {
      BasketCosts(e.basket, o.side, positions, FilledAt(e, rate.r) - e.filled, th.zero);
    }
  }

  // What every step keeps

  ghost predicate GoodEngagement(es: seq<Engagement>) {
    DistinctOrders(es) && forall e :: e in es ==> EngagementOk(e)
  }

  ghost predicate Bounded(s: State) {
    && (forall id :: id in s.batches ==> BoughtPositions(s.batches[id].positions))
    && (forall k :: k in s.carryOvers ==> Bought(s.carryOvers[k].lots))
    && (forall id :: id in s.engagements ==> GoodEngagement(s.engagements[id].orders))
  }

  /** Batches list an order once, executions cost something, and for the order `key` the order manager's answers keep
      what remained and nothing is carried over twice. */
  ghost predicate Agreed(s: State, step: Step, key: string) {
    match step
    case Register(_, e) => GoodEngagement(e.orders)
    case Execute(_, _, x, _) => 0.0 < x.quantity && 0.0 <= x.price && 0.0 <= x.fee
    case Change(key', o) => key' == key && key in s.orders ==> Advances(s.orders[key], o)
    case Confirm(_, confirmations, _) =>
      key in s.orders && key in confirmations ==>
        confirmations[key].engaged + confirmations[key].remaining == s.orders[key].remaining
    case Finish(_, _) => key in s.orders && Continues(s.orders[key]) ==> s.orders[key].carried == 0.0
    case _ => true
  }

  /** The answer to an engagement replaces what is engaged. That is less than nothing by what was spent while the order
      was in no batch. */
  function Gained(s: State, step: Step, key: string): real {
    match step
    case Confirm(id, confirmations, _) =>
      if key in s.orders && key in confirmations && id in s.engagements && ListsOrder(s.engagements[id].orders, key)
      then -s.orders[key].engaged else 0.0
    case _ => 0.0
  }

  ghost predicate Moves(s: State, s': State, key: string, gained: real) {
    && Bounded(s')
    && (key in s.orders ==> key in s'.orders && AdvancesBy(s.orders[key], s'.orders[key], gained))
  }

  // Answers

  lemma SameEngagementsGood(es: seq<Engagement>, es': seq<Engagement>)
    requires SameEngagements(es, es') && GoodEngagement(es)
    ensures GoodEngagement(es')
  {
    forall e | e in es' ensures EngagementOk(e) {
      var i :| 0 <= i < |es'| && es'[i] == e;
      assert EngagementOk(es[i]);
    }
  }

  lemma ListsFrom(es: seq<Engagement>, i: nat, key: string)
    requires i < |es| && DistinctOrders(es)
    ensures ListsOrder(es[i..], key) <==> es[i].order == key || ListsOrder(es[i + 1..], key)
    ensures es[i].order == key ==> !ListsOrder(es[i + 1..], key)
  {
    var xs, rest := es[i..], es[i + 1..];
    assert xs == [es[i]] + rest;
    if ListsOrder(rest, key) {
      var j :| 0 <= j < |rest| && rest[j].order == key;
      assert xs[j + 1].order == key && rest[j] == es[i + 1 + j];
    }
    if ListsOrder(xs, key) && es[i].order != key {
      var j :| 0 <= j < |xs| && xs[j].order == key;
      assert rest[j - 1].order == key;
    }
  }

  lemma SameEngagementsList(es: seq<Engagement>, es': seq<Engagement>, i: nat, key: string)
    requires SameEngagements(es, es') && i <= |es|
    ensures ListsOrder(es[i..], key) <==> ListsOrder(es'[i..], key)
  {
    if ListsOrder(es[i..], key) {
      var j :| 0 <= j < |es[i..]| && es[i..][j].order == key;
      assert es'[i..][j] == es'[i + j] && es[i..][j] == es[i + j];
    }
    if ListsOrder(es'[i..], key) {
      var j :| 0 <= j < |es'[i..]| && es'[i..][j].order == key;
      assert es'[i..][j] == es'[i + j] && es[i..][j] == es[i + j];
    }
  }

  /** Each listed order takes the order manager's answer once. */
  lemma {:induction false} EngageAnswers(
      s: State, id: string, i: nat, confirmations: map<string, Confirmation>, now: int, key: string)
    requires id in s.engagements && DistinctOrders(s.engagements[id].orders) && i <= |s.engagements[id].orders|
        && key in s.orders
    ensures var s' := EngageFrom(s, id, i, confirmations, now);
      && key in s'.orders
      && s'.orders[key] ==
           if ListsOrder(s.engagements[id].orders[i..], key)
           then EngageOrder(s.orders[key], key, confirmations, now)
           else s.orders[key]
    decreases |s.engagements[id].orders| - i
  {
    hide EngageOrder, DistinctOrders, ListsOrder;
    var es := s.engagements[id];
    if i < |es.orders| {
      var e := es.orders[i];
      ListsFrom(es.orders, i, key);
      if e.order !in s.orders {
        EngageAnswers(s, id, i + 1, confirmations, now, key);
      } else {
        var o := EngageOrder(s.orders[e.order], e.order, confirmations, now);
        var e' := if e.order in confirmations then e.(collateral := o.engaged) else e;
        var es' := es.orders[i := e'];
        assert SameEngagements(es.orders, es');
        SameEngagementsDistinct(es.orders, es');
        SameEngagementsList(es.orders, es', i + 1, key);
        hide SameEngagements;
        EngageAnswers(s.(orders := s.orders[e.order := o], engagements := s.engagements[id := es.(orders := es')]),
                      id, i + 1, confirmations, now, key);
      }
    } else {
      NothingListed(es.orders[i..], key);
    }
  }

  lemma NothingListed(es: seq<Engagement>, key: string)
    requires es == []
    ensures !ListsOrder(es, key)
  {
  }

  lemma SameEngagementsDistinct(es: seq<Engagement>, es': seq<Engagement>)
    requires SameEngagements(es, es') && DistinctOrders(es)
    ensures DistinctOrders(es')
  {
  }

  lemma AnswerMoves(o: SolverOrder, key: string, confirmations: map<string, Confirmation>, now: int)
    requires key in confirmations ==> confirmations[key].engaged + confirmations[key].remaining == o.remaining
    ensures AdvancesBy(o, EngageOrder(o, key, confirmations, now), if key in confirmations then -o.engaged else 0.0)
  {
  }

  lemma ConfirmMoves(s: State, id: string, confirmations: map<string, Confirmation>, now: int, key: string)
    requires Bounded(s) && id in s.engagements && Agreed(s, Confirm(id, confirmations, now), key)
    ensures Moves(s, EngageOrders(s, id, confirmations, now), key, Gained(s, Confirm(id, confirmations, now), key))
  {
    hide EngageFrom, EngageOrder, BoughtPositions, Bought, SameEngagements, ListsOrder, EngagementOk, AnsweredOrder;
    var es := s.engagements[id].orders;
    assert GoodEngagement(es) && es[0..] == es;
    AnswersOnly(s, id, 0, confirmations, now);
    SameEngagementsGood(es, EngageFrom(s, id, 0, confirmations, now).engagements[id].orders);
    if key in s.orders {
      EngageAnswers(s, id, 0, confirmations, now, key);
      AnswerMoves(s.orders[key], key, confirmations, now);
    }
  }

  // The other steps

  lemma FillMovesOn(s: State, id: string, i: nat, th: Thresholds, key: string)
    requires Bounded(s) && CanFill(s, id, i) && th.zero == 0.0
    ensures Moves(s, AfterFill(s, id, i, FillOf(s, id, i, th)), key, 0.0)
  {
    hide FillIndexOrder, BoughtPositions, Bought, EngagementOk, Worth;
    var es := s.engagements[id].orders;
    var e := es[i];
    assert GoodEngagement(es);
    assert EngagementOk(e);
    FillAdvances(s.batches[id].positions, e, s.orders[e.order], s.batches[id].timestamp, th);
    var f := FillOf(s, id, i, th);
    FilledIsGood(es, i, f.engagement);
  }

  lemma FilledIsGood(es: seq<Engagement>, i: nat, e: Engagement)
    requires i < |es| && GoodEngagement(es) && e == es[i].(filled := e.filled)
    ensures GoodEngagement(es[i := e])
  {
    assert EngagementOk(es[i]);
  }

  lemma BoughtCarryOut(positions: Positions, carryOvers: CarryOvers)
    requires BoughtPositions(positions) && forall k :: k in carryOvers ==> Bought(carryOvers[k].lots)
    ensures forall k :: k in CarryOut(positions, carryOvers) ==> Bought(CarryOut(positions, carryOvers)[k].lots)
    ensures BoughtPositions(Emptied(positions))
  {
    forall k | k in CarryOut(positions, carryOvers) ensures Bought(CarryOut(positions, carryOvers)[k].lots) {
      assert k in positions ==> Bought(positions[k].openLots);
      assert k in carryOvers ==> Bought(carryOvers[k].lots);
    }
    forall k | k in positions ensures Bought(LeftBehind(positions[k].openLots)) {
      assert Bought(positions[k].openLots);
    }
  }

  lemma GoodIsDistinct(es: seq<Engagement>)
    requires GoodEngagement(es)
    ensures DistinctOrders(es)
  {
  }

  lemma CompleteMovesOn(s: State, id: string, now: int, c: Config, key: string)
    requires Bounded(s) && id in s.batches && Agreed(s, Finish(id, now), key)
    ensures Moves(s, Complete(s, id, now, c).0, key, 0.0)
  {
    hide Bought, BoughtPositions, CarryOut, Emptied, DueMints, GoodEngagement, CarryAll, Continued, DistinctOrders,
        DistinctKeys;
    BoughtCarryOut(s.batches[id].positions, s.carryOvers);
    if id in s.engagements && key in s.orders {
      var promoted := Promote(s.orders, DueMints(s, now, c.mintWait));
      var continued := Continued(s.engagements[id].orders, promoted);
      assert DistinctOrders(s.engagements[id].orders) by { GoodIsDistinct(s.engagements[id].orders); }
      ContinuedContinue(s.engagements[id].orders, promoted, key);
      ContinuedOnce(s.engagements[id].orders, promoted);
      CarryAllOnlyCarries(promoted, continued);
      if key in continued {
        CarryAllCarriesOnce(promoted, continued, key);
      }
    }
  }

  lemma NewBatchIsBought(e: EngagedOrders, carryOvers: CarryOvers)
    requires Priced(e) && forall k :: k in carryOvers ==> Bought(carryOvers[k].lots)
    ensures BoughtPositions(CarryIn(NewPositions(e), carryOvers))
  {
    hide Bought;
    var positions := CarryIn(NewPositions(e), carryOvers);
    forall k | k in positions ensures Bought(positions[k].openLots) {
      assert NewPositions(e)[k].openLots == [];
      if k in carryOvers {
        assert [] + carryOvers[k].lots == carryOvers[k].lots;
      } else {
        NothingIsBought();
      }
    }
  }

  lemma NothingIsBought()
    ensures Bought([])
  {
  }

  lemma SendMovesOn(s: State, id: string, now: int, c: Config, key: string)
    requires Bounded(s)
    ensures Moves(s, SendBatch(s, id, now, c).0, key, 0.0)
  {
    hide GoodEngagement, VolleyOf, ToSend, AllCancelled, CarryIn, NewPositions, Bought, BoughtPositions;
    if id in s.engagements && Priced(s.engagements[id]) {
      NewBatchIsBought(s.engagements[id], s.carryOvers);
    }
  }

  lemma UpdateIsBought(b: Batch, k: AssetKey, x: Execution, now: int)
    requires BoughtPositions(b.positions) && 0.0 < x.quantity && 0.0 <= x.price && 0.0 <= x.fee
    ensures BoughtPositions(UpdateBatch(b, k, x, now).batch.positions)
  {
    if k in b.positions {
      assert Bought(b.positions[k].openLots);
    }
  }

  lemma CancelIsBought(b: Batch, k: AssetKey, quantity: real, cancelled: bool)
    requires BoughtPositions(b.positions) && k in b.positions
    ensures BoughtPositions(CancelAsset(b, k, quantity, cancelled).positions)
  {
    assert Bought(b.positions[k].openLots);
  }

  /** Every agreed step keeps all of the order's collateral, but for what an answer brings back, and takes nothing back
      from what was spent. */
  lemma StepMoves(s: State, step: Step, c: Config, key: string)
    requires Bounded(s) && Agreed(s, step, key) && c.th.zero == 0.0
    ensures Moves(s, Apply(s, step, c), key, Gained(s, step, key))
  {
    hide FillOf, AfterFill, CanFill, EngageOrders, Complete, SendBatch, UpdateBatch, CancelAsset, BoughtPositions,
        Bought, GoodEngagement;
    match step
    case Confirm(id, confirmations, now) =>
      if id in s.engagements { ConfirmMoves(s, id, confirmations, now, key); }
    case FillNext(id, i) => if CanFill(s, id, i) { FillMovesOn(s, id, i, c.th, key); }
    case Finish(id, now) => if id in s.batches { CompleteMovesOn(s, id, now, c, key); }
    case Send(id, now) => SendMovesOn(s, id, now, c, key);
    case Execute(id, k, x, now) => if id in s.batches { UpdateIsBought(s.batches[id], k, x, now); }
    case CancelOrder(id, k, quantity, cancelled) =>
      if id in s.batches && k in s.batches[id].positions { CancelIsBought(s.batches[id], k, quantity, cancelled); }
    case _ =>
  }

  // Whole runs

  ghost predicate AgreedFrom(s: State, steps: seq<Step>, c: Config, key: string)
    decreases |steps|
  {
    steps == [] || (Agreed(s, steps[0], key) && AgreedFrom(Apply(s, steps[0], c), steps[1..], c, key))
  }

  ghost function GainedFrom(s: State, steps: seq<Step>, c: Config, key: string): real
    decreases |steps|
  {
    if steps == [] then 0.0 else Gained(s, steps[0], key) + GainedFrom(Apply(s, steps[0], c), steps[1..], c, key)
  }

  lemma AdvancesOn(a: SolverOrder, b: SolverOrder, c: SolverOrder, first: real, second: real)
    requires AdvancesBy(a, b, first) && AdvancesBy(b, c, second)
    ensures AdvancesBy(a, c, first + second)
  {
  }

  lemma {:induction false} RunMoves(s: State, steps: seq<Step>, c: Config, key: string)
    requires Bounded(s) && AgreedFrom(s, steps, c, key) && c.th.zero == 0.0
    ensures Moves(s, RunFrom(s, steps, c), key, GainedFrom(s, steps, c, key))
    decreases |steps|
  {
    if steps != [] {
      hide Bounded, Apply, Agreed, AdvancesBy, Gained;
      StepMoves(s, steps[0], c, key);
      var s1 := Apply(s, steps[0], c);
      RunMoves(s1, steps[1..], c, key);
      if key in s.orders {
        AdvancesOn(s.orders[key], s1.orders[key], RunFrom(s1, steps[1..], c).orders[key], Gained(s, steps[0], key),
                   GainedFrom(s1, steps[1..], c, key));
      }
    }
  }

  /** The share of an order's collateral that is spent. */
  function SpentShare(o: SolverOrder): real
    requires Worth(o) != 0.0
  {
    o.spent / Worth(o)
  }

  lemma FactorOut(p: real, q: real, v: real)
    requires 0.0 < v
    ensures p * v <= q * v <==> p <= q
  {
  }

  /** Comparing shares crosswise. */
  lemma ShareOrder(x: real, v: real, y: real, w: real)
    requires 0.0 < v && 0.0 < w
    ensures x / v <= y / w <==> x * w <= y * v
  {
    var p, q := x / v, y / w;
    assert p * v == x && q * w == y;
    FactorOut(p, q, v);
    FactorOut(p * v, q * v, w);
    assert x * w == p * v * w && q * v * w == y * v;
  }

  /** From any state on, through any number of batches, an order's collateral grows by exactly what answers bring back
      of late spending, and what is spent never falls. So its spent share falls if and only if it is outgrown, and never
      while nothing is brought back. */
  lemma SpentShareFallsExactly(s: State, steps: seq<Step>, c: Config, key: string)
    requires Bounded(s) && AgreedFrom(s, steps, c, key) && c.th.zero == 0.0
    requires key in s.orders && 0.0 < Worth(s.orders[key])
    ensures var s', gained := RunFrom(s, steps, c), GainedFrom(s, steps, c, key);
      && key in s'.orders
      && Worth(s'.orders[key]) == Worth(s.orders[key]) + gained && s.orders[key].spent <= s'.orders[key].spent
      && var o, o' := s.orders[key], s'.orders[key];
         && (0.0 < Worth(o') ==>
               (SpentShare(o) <= SpentShare(o') <==> o.spent * gained <= (o'.spent - o.spent) * Worth(o)))
         && (gained == 0.0 ==> SpentShare(o) <= SpentShare(o'))
  {
    hide Bounded, AgreedFrom, RunFrom, GainedFrom, Worth;
    RunMoves(s, steps, c, key);
    var o, o', gained := s.orders[key], RunFrom(s, steps, c).orders[key], GainedFrom(s, steps, c, key);
    if 0.0 < Worth(o') {
      ShareOrder(o.spent, Worth(o), o'.spent, Worth(o'));
      Distributes(o.spent, Worth(o), gained);
      Distributes(Worth(o), o.spent, o'.spent - o.spent);
    }
    if gained == 0.0 {
      FactorOut(o.spent, o'.spent, Worth(o));
    }
  }

  lemma Distributes(x: real, y: real, z: real)
    ensures x * (y + z) == x * y + x * z
  {
  }
}
