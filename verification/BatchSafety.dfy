/** In every reachable state the open lots cover what a fill asks for. */
module BatchSafety {
  import opened Common
  import opened BatchLots
  import opened BatchFillSpec
  import opened BatchFillTheory
  import opened BatchManagerSpec
  import opened BatchRuns

  // What the rest of the solver promises

  ghost predicate KnownOrders(es: seq<Engagement>, orders: map<string, SolverOrder>) {
    forall e :: e in es ==> e.order in orders && orders[e.order].side == e.side
  }

  /** The engaged orders' fractions of an asset add up to at most one. */
  ghost predicate FairShares(es: seq<Engagement>) {
    && (forall e :: e in es ==> EngagementOk(e))
    && (forall e, k :: e in es ==> 0.0 <= FractionAt(k)(e))
    && (forall k :: SumBy(es, FractionAt(k)) <= 1.0)
  }

  ghost predicate Unfilled(es: seq<Engagement>) {
    forall e :: e in es ==> e.filled == 0.0
  }

  /** Batches are sent once with known orders and fair shares; nothing is filled in a completed batch; executions are
      of a positive quantity, on assets and batches with an order value to fill. */
  ghost predicate Legal(s: State, finished: set<string>, step: Step) {
    match step
    case Register(_, e) => KnownOrders(e.orders, s.orders) && FairShares(e.orders) && Unfilled(e.orders)
    case Send(id, _) => id !in s.batches
    case Execute(id, k, x, now) =>
      && id !in finished && 0.0 < x.quantity
      && (id in s.batches && k in s.batches[id].positions ==> UpdateBatch(s.batches[id], k, x, now).ok)
    case FillNext(id, _) => id !in finished
    case _ => true
  }

  ghost predicate LegalRun(steps: seq<Step>, c: Config)
    decreases |steps|
  {
    steps == [] ||
    var before := steps[..|steps| - 1];
    LegalRun(before, c) && Legal(Run(before, c), Finished(before), steps[|steps| - 1])
  }

  predicate ShortStep(s: State, step: Step, th: Thresholds) {
    step.FillNext? && CanFill(s, step.id, step.i) && RunsShort(FillOf(s, step.id, step.i, th))
  }

  ghost predicate EverShort(steps: seq<Step>, c: Config)
    decreases |steps|
  {
    steps != [] &&
    var before := steps[..|steps| - 1];
    EverShort(before, c) || ShortStep(Run(before, c), steps[|steps| - 1], c.th)
  }

  // What every step keeps

  ghost predicate CountsLots(carryOvers: CarryOvers) {
    forall k :: k in carryOvers ==> carryOvers[k].quantity == Available(carryOvers[k].lots)
  }

  ghost predicate SoundCarryOvers(carryOvers: CarryOvers) {
    (forall k :: k in carryOvers ==> Usable(carryOvers[k].lots)) && CountsLots(carryOvers)
  }

  ghost predicate SoundEngagement(es: seq<Engagement>, orders: map<string, SolverOrder>) {
    KnownOrders(es, orders) && FairShares(es)
  }

  ghost predicate SoundBatch(es: seq<Engagement>, b: Batch, finished: bool, slack: real) {
    UsablePositions(b.positions) && (finished || FairBatch(es, b.positions, slack))
  }

  ghost predicate Sound(s: State, finished: set<string>, slack: real) {
    && s.batches.Keys <= s.engagements.Keys
    && (forall id :: id in s.engagements ==> SoundEngagement(s.engagements[id].orders, s.orders))
    && (forall id :: id in s.engagements && id !in s.batches ==> Unfilled(s.engagements[id].orders))
    && (forall id :: id in s.batches ==> SoundBatch(s.engagements[id].orders, s.batches[id], id in finished, slack))
    && SoundCarryOvers(s.carryOvers)
  }

  lemma MoreSlack(es: seq<Engagement>, b: Batch, finished: bool, slack: real, slack': real)
    requires SoundBatch(es, b, finished, slack) && slack <= slack'
    ensures SoundBatch(es, b, finished, slack')
  {
    hide Usable, EngagementOk;
    if !finished {
      forall k | k in b.positions ensures Fair(es, b.positions[k], k, slack') {
        FairWithMoreSlack(es, b.positions[k], k, slack, slack');
      }
    }
  }

  // Engagements

  /** The same engagements, but for what is filled and the collateral. */
  ghost predicate SameShares(es: seq<Engagement>, es': seq<Engagement>) {
    && |es'| == |es|
    && forall i :: 0 <= i < |es| ==> es'[i] == es[i].(filled := es'[i].filled, collateral := es'[i].collateral)
  }

  lemma {:induction false} SumBySame<T>(xs: seq<T>, ys: seq<T>, f: T -> real)
    requires |xs| == |ys| && forall i :: 0 <= i < |xs| ==> f(xs[i]) == f(ys[i])
    ensures SumBy(xs, f) == SumBy(ys, f)
  {
    if xs != [] {
      SumBySame(xs[1..], ys[1..], f);
    }
  }

  lemma SameSharesSound(es: seq<Engagement>, es': seq<Engagement>, orders: map<string, SolverOrder>)
    requires SameShares(es, es') && SoundEngagement(es, orders)
    ensures SoundEngagement(es', orders)
  {
    forall e | e in es' ensures exists d :: d in es && e == d.(filled := e.filled, collateral := e.collateral) {
      var i :| 0 <= i < |es'| && es'[i] == e;
      assert es[i] in es;
    }
    forall k ensures SumBy(es', FractionAt(k)) <= 1.0 {
      SumBySame(es, es', FractionAt(k));
    }
  }

  /** Answers from the order manager change neither shares nor fills. */
  ghost predicate SameFills(es: seq<Engagement>, es': seq<Engagement>) {
    SameShares(es, es') && forall i :: 0 <= i < |es| ==> es'[i].filled == es[i].filled
  }

  lemma SameFillsFair(es: seq<Engagement>, es': seq<Engagement>, p: Position, k: AssetKey, slack: real)
    requires SameFills(es, es') && Fair(es, p, k, slack)
    ensures Fair(es', p, k, slack)
  {
    forall i | 0 <= i < |es'|
      ensures FractionAt(k)(es'[i]) == FractionAt(k)(es[i]) && TakenAt(k)(es'[i]) == TakenAt(k)(es[i])
    {
    }
    hide FractionAt, TakenAt;
    SumBySame(es, es', FractionAt(k));
    SumBySame(es, es', TakenAt(k));
    forall e | e in es' ensures WithinFraction(e, p, k) {
      var i :| 0 <= i < |es'| && es'[i] == e;
      assert WithinFraction(es[i], p, k);
    }
  }

  lemma SameFillsSound(es: seq<Engagement>, es': seq<Engagement>, b: Batch, finished: bool, slack: real)
    requires SameFills(es, es') && SoundBatch(es, b, finished, slack)
    ensures SoundBatch(es', b, finished, slack)
  {
    hide Fair;
    if !finished {
      forall e | e in es' ensures EngagementOk(e) {
        var i :| 0 <= i < |es'| && es'[i] == e;
        assert EngagementOk(es[i]);
      }
      forall k | k in b.positions ensures Fair(es', b.positions[k], k, slack) {
        SameFillsFair(es, es', b.positions[k], k, slack);
      }
    }
  }

  ghost predicate SameSides(orders: map<string, SolverOrder>, orders': map<string, SolverOrder>) {
    forall key :: key in orders ==> key in orders' && orders'[key].side == orders[key].side
  }

  lemma SameSidesKnown(es: seq<Engagement>, orders: map<string, SolverOrder>, orders': map<string, SolverOrder>)
    requires SoundEngagement(es, orders) && SameSides(orders, orders')
    ensures SoundEngagement(es, orders')
  {
    hide FairShares;
  }

  /** Changing orders but no sides. */
  lemma OrdersKeepSound(s: State, s': State, finished: set<string>, slack: real)
    requires Sound(s, finished, slack) && SameSides(s.orders, s'.orders)
    requires s'.batches == s.batches && s'.engagements == s.engagements && s'.carryOvers == s.carryOvers
    ensures Sound(s', finished, slack)
  {
    hide SoundEngagement, SoundBatch, SameSides, SoundCarryOvers, Unfilled;
    forall id | id in s'.engagements ensures SoundEngagement(s'.engagements[id].orders, s'.orders) {
      SameSidesKnown(s.engagements[id].orders, s.orders, s'.orders);
    }
  }

  lemma AnsweredKeepsFills(s: State, s': State, id: string)
    requires Answered(s, s', id) && id in s.engagements
    ensures SameSides(s.orders, s'.orders) && SameFills(s.engagements[id].orders, s'.engagements[id].orders)
  {
    forall key | key in s.orders ensures s'.orders[key].side == s.orders[key].side {
      assert AnsweredOrder(s.orders[key], s'.orders[key]);
    }
  }

  lemma ConfirmKeepsSound(
      s: State, id: string, confirmations: map<string, Confirmation>, now: int, finished: set<string>, slack: real)
    requires Sound(s, finished, slack) && id in s.engagements
    ensures Sound(EngageOrders(s, id, confirmations, now), finished, slack)
  {
    hide SoundEngagement, SoundBatch, SameSides, SoundCarryOvers, EngageFrom, SameShares, SameFills, SameEngagements,
        AnsweredOrder;
    var s' := EngageOrders(s, id, confirmations, now);
    AnswersOnly(s, id, 0, confirmations, now);
    AnsweredKeepsFills(s, EngageFrom(s, id, 0, confirmations, now), id);
    var es, es' := s.engagements[id].orders, s'.engagements[id].orders;
    forall j | j in s'.engagements ensures SoundEngagement(s'.engagements[j].orders, s'.orders) {
      if j == id {
        SameSharesSound(es, es', s.orders);
      }
      SameSidesKnown(s'.engagements[j].orders, s.orders, s'.orders);
    }
    if id in s.batches {
      SameFillsSound(es, es', s.batches[id], id in finished, slack);
    } else {
      SameFillsUnfilled(es, es');
    }
  }

  lemma SameFillsUnfilled(es: seq<Engagement>, es': seq<Engagement>)
    requires SameFills(es, es') && Unfilled(es)
    ensures Unfilled(es')
  {
    forall e | e in es' ensures e.filled == 0.0 {
      var i :| 0 <= i < |es'| && es'[i] == e;
      assert es[i] in es;
    }
  }

  // New batches

  lemma {:induction false} NothingNeeded(basket: seq<BasketAsset>, side: Side, k: AssetKey, units: real)
    requires units == 0.0
    ensures Needed(basket, side, k, units) == 0.0
  {
    if basket != [] {
      NothingNeeded(basket[1..], side, k, units);
    }
  }

  lemma {:induction false} NothingTaken(es: seq<Engagement>, k: AssetKey)
    requires Unfilled(es)
    ensures SumBy(es, TakenAt(k)) == 0.0
    ensures forall e :: e in es ==> TakenAt(k)(e) == 0.0
  {
    if es != [] {
      NothingNeeded(es[0].basket, es[0].side, k, es[0].filled);
      NothingTaken(es[1..], k);
    }
  }

  lemma AvailableNonNegative(open: seq<BatchLot>)
    requires Usable(open)
    ensures 0.0 <= Available(open)
  {
    SumByNonNegative(open, RemainingOf);
  }

  lemma ProductNonNegative(x: real, y: real)
    requires 0.0 <= x && 0.0 <= y
    ensures 0.0 <= x * y
  {
  }

  lemma NewPositionIsFair(es: seq<Engagement>, p: Position, k: AssetKey, slack: real)
    requires FairShares(es) && Unfilled(es) && 0.0 <= slack
    requires Usable(p.openLots) && p.quantity == Available(p.openLots)
    ensures Fair(es, p, k, slack)
  {
    hide FractionAt, TakenAt, Available, Usable, EngagementOk, Unfilled;
    NothingTaken(es, k);
    AvailableNonNegative(p.openLots);
    forall e | e in es ensures WithinFraction(e, p, k) {
      assert TakenAt(k)(e) == 0.0 <= FractionAt(k)(e);
      ProductNonNegative(p.quantity, FractionAt(k)(e));
    }
  }

  lemma NewBatchIsSound(e: EngagedOrders, carryOvers: CarryOvers, now: int, slack: real)
    requires Priced(e) && FairShares(e.orders) && Unfilled(e.orders) && SoundCarryOvers(carryOvers) && 0.0 <= slack
    ensures SoundBatch(e.orders, NewBatch(e, carryOvers, now), false, slack)
  {
    hide FairShares, Unfilled, Fair, Available, VolleyOf, AllCancelled;
    var positions := CarryIn(NewPositions(e), carryOvers);
    forall k | k in positions
      ensures Usable(positions[k].openLots) && Fair(e.orders, positions[k], k, slack)
    {
      var before := NewPositions(e)[k];
      assert before.openLots == [] && before.quantity == 0.0;
      if k in carryOvers {
        assert [] + carryOvers[k].lots == carryOvers[k].lots;
      } else {
        NoLotsAvailable();
      }
      NewPositionIsFair(e.orders, positions[k], k, slack);
    }
    SharesAreOk(e.orders);
  }

  lemma NoLotsAvailable()
    ensures Available([]) == 0.0
  {
  }

  lemma SharesAreOk(es: seq<Engagement>)
    requires FairShares(es)
    ensures forall e :: e in es ==> EngagementOk(e)
  {
  }

  lemma SendKeepsSound(s: State, id: string, now: int, c: Config, finished: set<string>, slack: real)
    requires Sound(s, finished, slack) && id !in s.batches && 0.0 <= slack
    ensures Sound(SendBatch(s, id, now, c).0, finished - {id}, slack)
  {
    hide SoundBatch, SoundEngagement, Unfilled, FairShares, NewBatch, NewPositions, ToSend;
    if id in s.engagements && s.engagements[id].orders != [] && Priced(s.engagements[id]) {
      var e := s.engagements[id];
      assert FairShares(e.orders) by {
        assert SoundEngagement(e.orders, s.orders);
        SharesOf(e.orders, s.orders);
      }
      NewBatchIsSound(e, s.carryOvers, now, slack);
    }
  }

  lemma SharesOf(es: seq<Engagement>, orders: map<string, SolverOrder>)
    requires SoundEngagement(es, orders)
    ensures FairShares(es) && KnownOrders(es, orders)
  {
  }

  // Executions

  lemma MoreFilledIsFair(es: seq<Engagement>, p: Position, p': Position, k: AssetKey, slack: real, x: Execution)
    requires Fair(es, p, k, slack) && 0.0 < x.quantity
    requires p'.quantity == p.quantity + x.quantity && p'.openLots == p.openLots + [NewLot(x)]
    ensures Fair(es, p', k, slack)
  {
    hide FractionAt, TakenAt;
    SumByAppend(p.openLots, [NewLot(x)], RemainingOf);
    SumByOne(NewLot(x), RemainingOf);
    forall e | e in es ensures WithinFraction(e, p', k) {
      assert WithinFraction(e, p, k);
      ProductNonNegative(x.quantity, FractionAt(k)(e));
      assert p'.quantity * FractionAt(k)(e) == p.quantity * FractionAt(k)(e) + x.quantity * FractionAt(k)(e);
    }
  }

  lemma UpdateKeepsSound(es: seq<Engagement>, b: Batch, k: AssetKey, x: Execution, now: int, slack: real)
    requires SoundBatch(es, b, false, slack) && 0.0 < x.quantity
    requires k in b.positions ==> UpdateBatch(b, k, x, now).ok
    ensures SoundBatch(es, UpdateBatch(b, k, x, now).batch, false, slack)
  {
    hide Fair, EngagementOk;
    if k in b.positions {
      MoreFilledIsFair(es, b.positions[k], UpdateBatch(b, k, x, now).batch.positions[k], k, slack, x);
    }
  }

  lemma BatchKeepsSound(s: State, s': State, id: string, finished: set<string>, slack: real)
    requires Sound(s, finished, slack) && id in s.batches && id in s'.batches
    requires s'.batches == s.batches[id := s'.batches[id]]
    requires SoundBatch(s.engagements[id].orders, s'.batches[id], id in finished, slack)
    requires s'.engagements == s.engagements && s'.carryOvers == s.carryOvers && s'.orders == s.orders
    ensures Sound(s', finished, slack)
  {
    hide SoundBatch, SoundEngagement, SoundCarryOvers, Unfilled;
  }

  // Fills

  lemma FillKeepsUsable(s: State, id: string, i: nat, slack: real, th: Thresholds)
    requires CanFill(s, id, i) && 0.0 <= th.zero && 0.0 <= slack
    requires var es := s.engagements[id].orders;
      SoundEngagement(es, s.orders) && SoundBatch(es, s.batches[id], false, slack)
    requires !RunsShort(FillOf(s, id, i, th))
    ensures var f := FillOf(s, id, i, th); var es := s.engagements[id].orders;
      SoundBatch(es[i := f.engagement], s.batches[id].(positions := f.positions), false, slack + th.zero)
  {
    hide FillIndexOrder, Fair, EngagementOk, Usable;
    var es := s.engagements[id].orders;
    var f := FillOf(s, id, i, th);
    var b := s.batches[id];
    assert es[i] in es;
    FillKeepsFair(es, i, b.positions, slack, s.orders[es[i].order], b.timestamp, th);
    forall k | k in f.positions ensures Usable(f.positions[k].openLots) {
      FairIsUsable(es[i := f.engagement], f.positions[k], k, slack + th.zero);
    }
  }

  lemma FairIsUsable(es: seq<Engagement>, p: Position, k: AssetKey, slack: real)
    requires Fair(es, p, k, slack)
    ensures Usable(p.openLots)
  {
  }

  lemma FillKeepsShares(positions: Positions, e: Engagement, o: SolverOrder, now: int, th: Thresholds)
    ensures var f := FillIndexOrder(positions, e, o, now, th);
      f.engagement == e.(filled := f.engagement.filled) && f.order.side == o.side
  {
    hide BasketRate, AllocateBasket, FilledAt;
  }

  lemma FillKeepsSound(s: State, id: string, i: nat, finished: set<string>, slack: real, th: Thresholds)
    requires Sound(s, finished, slack) && CanFill(s, id, i) && id !in finished && 0.0 <= th.zero && 0.0 <= slack
    requires !RunsShort(FillOf(s, id, i, th))
    ensures Sound(AfterFill(s, id, i, FillOf(s, id, i, th)), finished, slack + th.zero)
  {
    hide FillOf, SoundBatch, SoundEngagement, SoundCarryOvers, Unfilled;
    var f := FillOf(s, id, i, th);
    var s' := AfterFill(s, id, i, f);
    var es := s.engagements[id].orders;
    FillKeepsUsable(s, id, i, slack, th);
    FillOfKeepsShares(s, id, i, th);
    var s1 := s.(orders := s'.orders);
    OrdersKeepSound(s, s1, finished, slack);
    forall j | j in s'.engagements ensures SoundEngagement(s'.engagements[j].orders, s'.orders) {
      if j == id {
        SameSharesSound(es, es[i := f.engagement], s'.orders);
      }
    }
    forall j | j in s'.batches
      ensures SoundBatch(s'.engagements[j].orders, s'.batches[j], j in finished, slack + th.zero)
    {
      if j != id {
        MoreSlack(s.engagements[j].orders, s.batches[j], j in finished, slack, slack + th.zero);
      }
    }
  }

  lemma FillOfKeepsShares(s: State, id: string, i: nat, th: Thresholds)
    requires CanFill(s, id, i)
    ensures var f := FillOf(s, id, i, th); var es := s.engagements[id].orders;
      && SameShares(es, es[i := f.engagement])
      && SameSides(s.orders, AfterFill(s, id, i, f).orders)
  {
    hide FillIndexOrder;
    var e := s.engagements[id].orders[i];
    FillKeepsShares(s.batches[id].positions, e, s.orders[e.order], s.batches[id].timestamp, th);
  }

  // Completion

  lemma EmptiedIsUsable(positions: Positions)
    requires UsablePositions(positions)
    ensures UsablePositions(Emptied(positions))
  {
    forall k | k in Emptied(positions) ensures Usable(Emptied(positions)[k].openLots) {
      assert Usable(positions[k].openLots);
    }
  }

  lemma CarryOutCountsLots(positions: Positions, carryOvers: CarryOvers)
    requires CountsLots(carryOvers)
    ensures CountsLots(CarryOut(positions, carryOvers))
  {
    var out := CarryOut(positions, carryOvers);
    forall k | k in out ensures out[k].quantity == Available(out[k].lots) {
      if k in positions && k in carryOvers {
        SumByAppend(carryOvers[k].lots, positions[k].openLots, RemainingOf);
      }
    }
  }

  lemma StepCountsLots(s: State, step: Step, c: Config)
    requires CountsLots(s.carryOvers)
    ensures CountsLots(Apply(s, step, c).carryOvers)
  {
    hide CountsLots, CarryOut, FillOf, UpdateBatch, CancelAsset, NewBatch, NewPositions, ToSend, CarryAll,
      Continued;
    match step
    case Confirm(id, confirmations, now) =>
      if id in s.engagements {
        AnswersOnly(s, id, 0, confirmations, now);
      }
    case Finish(id, _) =>
      if id in s.batches {
        CarryOutCountsLots(s.batches[id].positions, s.carryOvers);
      }
    case Send(id, _) =>
      if id in s.engagements && Priced(s.engagements[id]) {
        LessCountsLots(s.carryOvers, NewPositions(s.engagements[id]).Keys);
      }
    case _ =>
  }

  lemma LessCountsLots(carryOvers: CarryOvers, keys: set<AssetKey>)
    requires CountsLots(carryOvers)
    ensures CountsLots(carryOvers - keys)
  {
  }

  /** After any run whatever, the quantity that is carried over of an asset is exactly what its carried lots hold. */
  lemma {:induction false} CarriedIsItsLots(steps: seq<Step>, c: Config)
    ensures CountsLots(Run(steps, c).carryOvers)
    decreases |steps|
  {
    if steps != [] {
      hide Apply;
      CarriedIsItsLots(steps[..|steps| - 1], c);
      StepCountsLots(Run(steps[..|steps| - 1], c), steps[|steps| - 1], c);
    }
  }

  lemma CarryOutIsSound(positions: Positions, carryOvers: CarryOvers)
    requires UsablePositions(positions) && SoundCarryOvers(carryOvers)
    ensures SoundCarryOvers(CarryOut(positions, carryOvers))
  {
    var out := CarryOut(positions, carryOvers);
    CarryOutCountsLots(positions, carryOvers);
    forall k | k in out ensures Usable(out[k].lots) {
      assert k in positions ==> Usable(positions[k].openLots);
    }
  }

  lemma CompleteKeepsSides(s: State, id: string, now: int, c: Config)
    requires id in s.batches
    ensures SameSides(s.orders, Complete(s, id, now, c).0.orders)
  {
    hide DueMints, CarryOut, Emptied;
    if id in s.engagements {
      var promoted := Promote(s.orders, DueMints(s, now, c.mintWait));
      CarryAllOnlyCarries(promoted, Continued(s.engagements[id].orders, promoted));
    }
  }

  lemma CompleteKeepsSound(s: State, id: string, now: int, c: Config, finished: set<string>, slack: real)
    requires Sound(s, finished, slack) && id in s.batches
    ensures Sound(Complete(s, id, now, c).0, finished + {id}, slack)
  {
    hide SoundEngagement, FairBatch, Unfilled, SoundCarryOvers, UsablePositions, CarryOut, Emptied, DueMints,
        Promote, Continued, CarryAll, SameSides;
    var b := s.batches[id];
    var s' := Complete(s, id, now, c).0;
    assert SoundBatch(s.engagements[id].orders, b, id in finished, slack);
    EmptiedIsUsable(b.positions);
    CarryOutIsSound(b.positions, s.carryOvers);
    CompleteKeepsSides(s, id, now, c);
    OrdersKeepSound(s, s.(orders := s'.orders), finished, slack);
  }

  // All steps

  lemma FinishingMoreIsSound(s: State, finished: set<string>, finished': set<string>, slack: real)
    requires Sound(s, finished, slack)
    requires forall id :: id in s.batches && id in finished ==> id in finished'
    ensures Sound(s, finished', slack)
  {
    hide UsablePositions, FairBatch, SoundEngagement, SoundCarryOvers, Unfilled;
  }

  lemma SlackKeepsSound(s: State, finished: set<string>, slack: real, slack': real)
    requires Sound(s, finished, slack) && slack <= slack'
    ensures Sound(s, finished, slack')
  {
    hide SoundEngagement, SoundBatch, SoundCarryOvers, Unfilled;
    forall id | id in s.batches ensures SoundBatch(s.engagements[id].orders, s.batches[id], id in finished, slack') {
      MoreSlack(s.engagements[id].orders, s.batches[id], id in finished, slack, slack');
    }
  }

  lemma ExecuteKeepsSound(s: State, step: Step, c: Config, finished: set<string>, slack: real)
    requires Sound(s, finished, slack) && step.Execute? && Legal(s, finished, step)
    ensures Sound(Apply(s, step, c), finished, slack)
  {
    hide SoundEngagement, SoundBatch, SoundCarryOvers, Unfilled, UpdateBatch;
    if step.id in s.batches {
      UpdateKeepsSound(s.engagements[step.id].orders, s.batches[step.id], step.k, step.x, step.now, slack);
      BatchKeepsSound(s, Apply(s, step, c), step.id, finished, slack);
    }
  }

  lemma CancelKeepsBatch(
      es: seq<Engagement>, b: Batch, k: AssetKey, quantity: real, cancelled: bool, finished: bool, slack: real)
    requires SoundBatch(es, b, finished, slack) && k in b.positions
    ensures SoundBatch(es, CancelAsset(b, k, quantity, cancelled), finished, slack)
  {
    hide EngagementOk, FractionAt, TakenAt;
    if !finished {
      assert Fair(es, b.positions[k], k, slack);
    }
    var b' := CancelAsset(b, k, quantity, cancelled);
    var p' := b'.positions[k];
    assert !finished ==> Fair(es, p', k, slack) by {
      if !finished {
        forall e | e in es ensures WithinFraction(e, p', k) {
          assert WithinFraction(e, b.positions[k], k);
        }
      }
    }
  }

  lemma CancelKeepsSound(s: State, step: Step, c: Config, finished: set<string>, slack: real)
    requires Sound(s, finished, slack) && step.CancelOrder?
    ensures Sound(Apply(s, step, c), finished, slack)
  {
    hide SoundEngagement, SoundBatch, SoundCarryOvers, Unfilled, CancelAsset;
    if step.id in s.batches && step.k in s.batches[step.id].positions {
      CancelKeepsBatch(s.engagements[step.id].orders, s.batches[step.id], step.k, step.quantity, step.cancelled,
                       step.id in finished, slack);
      BatchKeepsSound(s, Apply(s, step, c), step.id, finished, slack);
    }
  }

  lemma RegisterKeepsSound(s: State, step: Step, c: Config, finished: set<string>, slack: real)
    requires Sound(s, finished, slack) && step.Register? && Legal(s, finished, step)
    ensures Sound(Apply(s, step, c), finished, slack)
  {
    hide FairShares, KnownOrders, SoundBatch, SoundCarryOvers, Unfilled;
  }

  lemma CleanKeepsSound(s: State, finished: set<string>, slack: real)
    requires Sound(s, finished, slack)
    ensures Sound(Cleanup(s), finished, slack)
  {
    hide SoundEngagement, SoundBatch, SoundCarryOvers, Unfilled;
  }

  /** Every legal step that does not run short keeps the state sound, and adds at most the tolerance to the slack. */
  lemma StepKeepsSound(s: State, step: Step, c: Config, finished: set<string>, slack: real, slack': real)
    requires Sound(s, finished, slack) && Legal(s, finished, step) && !ShortStep(s, step, c.th)
    requires 0.0 <= c.th.zero && 0.0 <= slack && slack' == slack + c.th.zero
    ensures Sound(Apply(s, step, c), NowFinished(finished, step), slack')
  {
    hide Sound, FillOf, AfterFill, CanFill, Complete, SendBatch, EngageOrders, Cleanup, UpdateBatch, CancelAsset,
      KnownOrders, FairShares, Unfilled;
    SlackKeepsSound(s, finished, slack, slack');
    match step
    case Register(_, _) => RegisterKeepsSound(s, step, c, finished, slack');
    case Confirm(id, confirmations, now) =>
      if id in s.engagements { ConfirmKeepsSound(s, id, confirmations, now, finished, slack'); }
    case Send(id, now) => SendKeepsSound(s, id, now, c, finished, slack');
    case Execute(_, _, _, _) => ExecuteKeepsSound(s, step, c, finished, slack');
    case FillNext(id, i) => if CanFill(s, id, i) { FillKeepsSound(s, id, i, finished, slack, c.th); }
    case CancelOrder(_, _, _, _) => CancelKeepsSound(s, step, c, finished, slack');
    case Finish(id, now) =>
      if id in s.batches {
        CompleteKeepsSound(s, id, now, c, finished, slack');
      } else {
        UnknownIsFinished(s, finished, id, slack');
      }
    case Clean => CleanKeepsSound(s, finished, slack');
    case _ => OrderStepKeepsSound(s, step, c, finished, slack');
  }

  lemma UnknownIsFinished(s: State, finished: set<string>, id: string, slack: real)
    requires Sound(s, finished, slack) && id !in s.batches
    ensures Sound(s, finished + {id}, slack)
  {
    FinishingMoreIsSound(s, finished, finished + {id}, slack);
  }

  lemma OrderStepKeepsSound(s: State, step: Step, c: Config, finished: set<string>, slack: real)
    requires Sound(s, finished, slack) && (step.TakeReady? || step.Arrive? || step.Change? || step.Drain?)
    ensures Sound(Apply(s, step, c), finished, slack)
  {
    hide Sound, FillOf, AfterFill, CanFill, SendBatch, Complete, EngageOrders, Cleanup, UpdateBatch, CancelAsset,
      NewEngagement;
    OrdersKeepSound(s, Apply(s, step, c), finished, slack);
  }

  lemma NothingIsSound(slack: real)
    ensures Sound(NOTHING, {}, slack)
  {
  }

  /** A legal run in which no fill ran short is sound; each step adds at most the tolerance to the slack. */
  lemma {:induction false} RunsAreSound(steps: seq<Step>, c: Config)
    requires LegalRun(steps, c) && !EverShort(steps, c) && 0.0 <= c.th.zero
    ensures Sound(Run(steps, c), Finished(steps), Times(|steps|, c.th.zero))
    decreases |steps|
  {
    hide Sound, Legal, ShortStep, Apply, NowFinished;
    if steps == [] {
      NothingIsSound(Times(0, c.th.zero));
    } else {
      var n := |steps| - 1;
      RunsAreSound(steps[..n], c);
      TimesGrows(0, n, c.th.zero);
      StepKeepsSound(Run(steps[..n], c), steps[n], c, Finished(steps[..n]), Times(n, c.th.zero),
                     Times(|steps|, c.th.zero));
    }
  }

  lemma NextShortage(s: State, finished: set<string>, slack: real, id: string, i: nat, th: Thresholds)
    requires Sound(s, finished, slack) && CanFill(s, id, i) && id !in finished && 0.0 <= th.zero && 0.0 <= slack
    ensures var f := FillOf(s, id, i, th); RunsShort(f) ==> th.zero < f.error.value.left <= slack
  {
    hide FillIndexOrder, FairShares, FairBatch;
    var es := s.engagements[id].orders;
    assert SoundEngagement(es, s.orders) && SoundBatch(es, s.batches[id], false, slack);
    assert es[i] in es;
    AllocationShortage(es, i, s.batches[id].positions, slack, s.orders[es[i].order], s.batches[id].timestamp, th);
  }

  /** Whatever the tolerance, the first fill to run short is short by no more than the tolerance times the steps. */
  lemma ShortageIsBounded(steps: seq<Step>, c: Config, id: string, i: nat)
    requires LegalRun(steps, c) && !EverShort(steps, c) && 0.0 <= c.th.zero
    requires CanFill(Run(steps, c), id, i) && id !in Finished(steps)
    ensures var f := FillOf(Run(steps, c), id, i, c.th);
      RunsShort(f) ==> c.th.zero < f.error.value.left <= Times(|steps|, c.th.zero)
  {
    hide FillOf, CanFill, Sound, EverShort, LegalRun, Finished, Run, Times;
    RunsAreSound(steps, c);
    TimesGrows(0, |steps|, c.th.zero);
    NextShortage(Run(steps, c), Finished(steps), Times(|steps|, c.th.zero), id, i, c.th);
  }

  /** Without a tolerance no fill ever runs short, whatever the interleaving of batches, fills and completions. */
  lemma {:induction false} NeverShortOnRuns(steps: seq<Step>, c: Config, t: real)
    requires LegalRun(steps, c) && t == 0.0 && c.th.zero == t
    ensures !EverShort(steps, c)
    ensures forall id, i: nat :: CanFill(Run(steps, c), id, i) && id !in Finished(steps) ==>
      !RunsShort(FillOf(Run(steps, c), id, i, c.th))
    decreases |steps|
  {
    hide FillOf, CanFill, Run, Finished;
    if steps != [] {
      NeverShortOnRuns(steps[..|steps| - 1], c, t);
    }
    forall id, i: nat | CanFill(Run(steps, c), id, i) && id !in Finished(steps)
      ensures !RunsShort(FillOf(Run(steps, c), id, i, c.th))
    {
      ShortageIsBounded(steps, c, id, i);
      TimesOfNothing(|steps|, c.th.zero);
    }
  }
}
