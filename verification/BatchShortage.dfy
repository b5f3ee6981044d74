/** When exactly a fill runs short, and inputs on which it does. */
module BatchShortage {
  import opened Common
  import opened BatchLots
  import opened BatchFillSpec
  import opened BatchFillTheory
  import opened BatchManagerSpec
  import opened BatchRuns
  import opened BatchSafety

  // In every reachable state, also after shortages and in completed batches

  /** Baskets are in order and executions are of a positive quantity; nothing else is asked of a run. */
  ghost predicate Plain(step: Step) {
    match step
    case Register(_, e) => EngagementsOk(e.orders)
    case Execute(_, _, x, _) => 0.0 < x.quantity
    case _ => true
  }

  ghost predicate EngagementsOk(es: seq<Engagement>) {
    forall e :: e in es ==> EngagementOk(e)
  }

  ghost predicate UsableCarryOvers(carryOvers: CarryOvers) {
    forall k :: k in carryOvers ==> Usable(carryOvers[k].lots)
  }

  ghost predicate Stocked(s: State) {
    && (forall id :: id in s.batches ==> UsablePositions(s.batches[id].positions))
    && (forall id :: id in s.engagements ==> EngagementsOk(s.engagements[id].orders))
    && UsableCarryOvers(s.carryOvers)
  }

  lemma ConfirmKeepsStocked(s: State, id: string, confirmations: map<string, Confirmation>, now: int)
    requires Stocked(s) && id in s.engagements
    ensures Stocked(EngageOrders(s, id, confirmations, now))
  {
    hide UsablePositions, EngageFrom, AnsweredOrder, BasketOk;
    AnswersOnly(s, id, 0, confirmations, now);
    var es := s.engagements[id].orders;
    var es' := EngageOrders(s, id, confirmations, now).engagements[id].orders;
    forall e | e in es' ensures EngagementOk(e) {
      var i :| 0 <= i < |es'| && es'[i] == e;
      assert EngagementOk(es[i]);
    }
  }

  lemma NewBatchIsStocked(e: EngagedOrders, carryOvers: CarryOvers, now: int)
    requires Priced(e) && UsableCarryOvers(carryOvers)
    ensures UsablePositions(NewBatch(e, carryOvers, now).positions)
  {
    hide VolleyOf;
    var positions := CarryIn(NewPositions(e), carryOvers);
    forall k | k in positions ensures Usable(positions[k].openLots) {
      if k in carryOvers {
        assert Usable(carryOvers[k].lots) && [] + carryOvers[k].lots == carryOvers[k].lots;
      }
    }
  }

  lemma UpdateKeepsStocked(b: Batch, k: AssetKey, x: Execution, now: int)
    requires UsablePositions(b.positions) && 0.0 < x.quantity
    ensures UsablePositions(UpdateBatch(b, k, x, now).batch.positions)
  {
    if k in b.positions {
      assert Usable(b.positions[k].openLots);
      assert Usable(b.positions[k].openLots + [NewLot(x)]);
    }
  }

  lemma FillKeepsStocked(s: State, id: string, i: nat, th: Thresholds)
    requires Stocked(s) && CanFill(s, id, i) && 0.0 <= th.zero
    ensures Stocked(AfterFill(s, id, i, FillOf(s, id, i, th)))
  {
    hide FillIndexOrder, UsablePositions, BasketOk, UsableCarryOvers;
    var es := s.engagements[id].orders;
    var f := FillOf(s, id, i, th);
    assert es[i] in es && EngagementOk(es[i]);
    FillFailsExactly(s.batches[id].positions, es[i], s.orders[es[i].order], s.batches[id].timestamp, th);
    FillKeepsShares(s.batches[id].positions, es[i], s.orders[es[i].order], s.batches[id].timestamp, th);
    forall e | e in es[i := f.engagement] ensures EngagementOk(e) {
      assert e in es || e == es[i].(filled := e.filled);
    }
  }

  lemma CarryOutIsUsable(positions: Positions, carryOvers: CarryOvers)
    requires UsablePositions(positions) && UsableCarryOvers(carryOvers)
    ensures UsableCarryOvers(CarryOut(positions, carryOvers))
  {
    var out := CarryOut(positions, carryOvers);
    forall k | k in out ensures Usable(out[k].lots) {
      assert k in positions ==> Usable(positions[k].openLots);
      assert k in carryOvers ==> Usable(carryOvers[k].lots);
    }
  }

  lemma CompleteKeepsStocked(s: State, id: string, now: int, c: Config)
    requires Stocked(s) && id in s.batches
    ensures Stocked(Complete(s, id, now, c).0)
  {
    hide UsablePositions, UsableCarryOvers, EngagementsOk, CarryOut, Emptied, DueMints, Promote, Continued, CarryAll;
    EmptiedIsUsable(s.batches[id].positions);
    CarryOutIsUsable(s.batches[id].positions, s.carryOvers);
  }

  lemma SendKeepsStocked(s: State, id: string, now: int, c: Config)
    requires Stocked(s)
    ensures Stocked(SendBatch(s, id, now, c).0)
  {
    hide UsablePositions, EngagementsOk, NewBatch, NewPositions, ToSend;
    if id in s.engagements && Priced(s.engagements[id]) {
      NewBatchIsStocked(s.engagements[id], s.carryOvers, now);
    }
  }

  lemma ExecuteKeepsStocked(s: State, step: Step, c: Config)
    requires Stocked(s) && step.Execute? && Plain(step)
    ensures Stocked(Apply(s, step, c))
  {
    hide UsablePositions, EngagementsOk, UsableCarryOvers, UpdateBatch;
    if step.id in s.batches {
      UpdateKeepsStocked(s.batches[step.id], step.k, step.x, step.now);
    }
  }

  lemma CancelKeepsUsable(b: Batch, k: AssetKey, quantity: real, cancelled: bool)
    requires k in b.positions && UsablePositions(b.positions)
    ensures UsablePositions(CancelAsset(b, k, quantity, cancelled).positions)
  {
  }

  lemma OrderStepKeepsStocked(s: State, step: Step, c: Config)
    requires Stocked(s)
    requires step.TakeReady? || step.Arrive? || step.Change? || step.Drain? || step.Clean? || step.CancelOrder?
    ensures Stocked(Apply(s, step, c))
  {
    hide EngagementsOk, UsableCarryOvers, UsablePositions, Usable, FillOf, AfterFill, SendBatch, EngageOrders,
      NewEngagement, Complete, UpdateBatch, CanFill;
    if step.CancelOrder? && step.id in s.batches && step.k in s.batches[step.id].positions {
      CancelKeepsUsable(s.batches[step.id], step.k, step.quantity, step.cancelled);
    }
  }

  lemma StepKeepsStocked(s: State, step: Step, c: Config)
    requires Stocked(s) && Plain(step) && 0.0 <= c.th.zero
    ensures Stocked(Apply(s, step, c))
  {
    match step
    case Register(_, _) =>
    case Confirm(id, confirmations, now) =>
      if id in s.engagements { ConfirmKeepsStocked(s, id, confirmations, now); }
    case Send(id, now) => SendKeepsStocked(s, id, now, c);
    case Execute(_, _, _, _) => ExecuteKeepsStocked(s, step, c);
    case FillNext(id, i) => if CanFill(s, id, i) { FillKeepsStocked(s, id, i, c.th); }
    case Finish(id, now) => if id in s.batches { CompleteKeepsStocked(s, id, now, c); }
    case _ => OrderStepKeepsStocked(s, step, c);
  }

  lemma {:induction false} RunsAreStocked(steps: seq<Step>, c: Config)
    requires (forall step :: step in steps ==> Plain(step)) && 0.0 <= c.th.zero
    ensures Stocked(Run(steps, c))
    decreases |steps|
  {
    hide Stocked, Apply, Plain;
    if steps == [] {
      NothingIsStocked();
    } else {
      RunsAreStocked(steps[..|steps| - 1], c);
      StepKeepsStocked(Run(steps[..|steps| - 1], c), steps[|steps| - 1], c);
    }
  }

  lemma NothingIsStocked()
    ensures Stocked(NOTHING)
  {
  }

  /** After any run, legal or not, a fill reports insufficient lots if and only if some asset's open lots fall short of
      what the order's share asks for by more than the tolerance. */
  lemma ShortExactly(steps: seq<Step>, c: Config, id: string, i: nat)
    requires (forall step :: step in steps ==> Plain(step)) && 0.0 <= c.th.zero && CanFill(Run(steps, c), id, i)
    ensures var s := Run(steps, c); var e := s.engagements[id].orders[i];
      RunsShort(FillOf(s, id, i, c.th)) <==> AsksTooMuch(s.batches[id].positions, e, s.orders[e.order], c.th)
  {
    hide Run, FillIndexOrder, AsksTooMuch, EngagementOk;
    RunsAreStocked(steps, c);
    var s := Run(steps, c);
    var e := s.engagements[id].orders[i];
    assert e in s.engagements[id].orders;
    FillFailsExactly(s.batches[id].positions, e, s.orders[e.order], s.batches[id].timestamp, c.th);
  }

  // Building runs step by step

  lemma Longer(steps: seq<Step>, step: Step, c: Config)
    ensures var more := steps + [step]; var s := Run(steps, c);
      && Run(more, c) == Apply(s, step, c)
      && Finished(more) == NowFinished(Finished(steps), step)
      && (LegalRun(more, c) <==> LegalRun(steps, c) && Legal(s, Finished(steps), step))
      && (EverShort(more, c) <==> EverShort(steps, c) || ShortStep(s, step, c.th))
  {
    assert (steps + [step])[..|steps|] == steps;
  }

  /** A run so far: its steps, where it ended, which batches are completed, whether it is legal and ever ran short. */
  datatype Trace = Trace(steps: seq<Step>, s: State, finished: set<string>, legal: bool, short: bool)

  ghost predicate IsTrace(r: Trace, c: Config) {
    && Run(r.steps, c) == r.s && Finished(r.steps) == r.finished
    && LegalRun(r.steps, c) == r.legal && EverShort(r.steps, c) == r.short
  }

  /** One legal step more. */
  lemma Next(r: Trace, step: Step, c: Config) returns (r': Trace)
    requires IsTrace(r, c) && r.legal && Legal(r.s, r.finished, step)
    ensures IsTrace(r', c) && r'.legal && r'.steps == r.steps + [step]
    ensures r'.s == Apply(r.s, step, c) && r'.finished == NowFinished(r.finished, step)
    ensures r'.short <==> r.short || ShortStep(r.s, step, c.th)
  {
    hide Apply, NowFinished, Legal, ShortStep, Run, Finished, LegalRun, EverShort;
    Longer(r.steps, step, c);
    r' := Trace(r.steps + [step], Apply(r.s, step, c), NowFinished(r.finished, step), true,
                r.short || ShortStep(r.s, step, c.th));
  }

  /** A step that need not be legal and a fill after it that runs short. */
  lemma ThenShort(r: Trace, step: Step, id: string, i: nat, c: Config)
    requires IsTrace(r, c)
    requires var s := Apply(r.s, step, c); CanFill(s, id, i) && RunsShort(FillOf(s, id, i, c.th))
    ensures EverShort(r.steps + [step] + [FillNext(id, i)], c)
  {
    hide Apply, Run, Finished, LegalRun, EverShort, FillOf, CanFill;
    Longer(r.steps, step, c);
    Longer(r.steps + [step], FillNext(id, i), c);
  }

  // Two orders sent to one batch

  const A := AssetKey("A", Buy)
  const B := AssetKey("B", Buy)

  function NewOrder(u: real): SolverOrder {
    SolverOrder(Buy, 200.0 * u, 0.0, 0.0, 200.0 * u, 0.0, 0.0, 0, Ready, Some("P"), [])
  }

  function Part(order: string, basket: seq<BasketAsset>, fractions: map<string, real>, u: real): Engagement {
    var most := 100.0 * u;
    Engagement(order, Buy, basket, fractions, map symbol | symbol in fractions :: most, most, 0.0, 0.0)
  }

  function Agreed(u: real): map<string, Confirmation> {
    map["X" := Confirmation(200.0 * u, 0.0), "Y" := Confirmation(200.0 * u, 0.0)]
  }

  /** The batch with these positions, the first order filled so far, the second one waiting for its first fill. */
  ghost predicate Stage(s: State, positions: Positions, x: Engagement, y: Engagement, spent: real, u: real) {
    && "N" in s.batches && "N" in s.engagements && "X" in s.orders && "Y" in s.orders
    && s.batches["N"].positions == positions
    && x.order == "X" && y.order == "Y" && s.engagements["N"].orders == [x, y]
    && s.orders["Y"] == Engage(NewOrder(u), Agreed(u)["Y"], 0)
    && var o := s.orders["X"];
       o.side == Buy && o.status.Engaged? && o.spent == spent && TotalCollateral(o) == 200.0 * u
  }

  ghost predicate SharesFit(fx: map<string, real>, fy: map<string, real>) {
    && fx.Keys == fy.Keys
    && forall symbol :: symbol in fx ==> 0.0 <= fx[symbol] && 0.0 <= fy[symbol] && fx[symbol] + fy[symbol] <= 1.0
  }

  lemma TwoShares(x: Engagement, y: Engagement)
    requires x.side == y.side && x.basket == y.basket && SharesFit(x.fractions, y.fractions)
    requires EngagementOk(x) && EngagementOk(y)
    ensures FairShares([x, y])
  {
    forall k ensures SumBy([x, y], FractionAt(k)) <= 1.0 {
      assert [x, y][1..] == [y];
      SumByOne(y, FractionAt(k));
    }
  }

  ghost predicate TwoOrders(e: EngagedOrders, x: Engagement, y: Engagement) {
    && e.orders == [x, y] && Priced(e) && e.quantities != map[]
    && x.order == "X" && y.order == "Y" && x.side == Buy && y.side == Buy && x.basket == y.basket
    && EngagementOk(x) && EngagementOk(y) && Unfilled(e.orders) && SharesFit(x.fractions, y.fractions)
  }

  function Engaged(e: EngagedOrders, x: Engagement, y: Engagement, u: real): EngagedOrders {
    var most := 200.0 * u;
    e.(orders := [x.(collateral := most), y.(collateral := most)])
  }

  /** What the state is when both orders arrived and were engaged. */
  ghost function Waiting(e: EngagedOrders, x: Engagement, y: Engagement, u: real): State {
    var o := Engage(NewOrder(u), Confirmation(200.0 * u, 0.0), 0);
    NOTHING.(engagements := map["N" := Engaged(e, x, y, u)], readyBatches := ["N"], orders := map["X" := o, "Y" := o])
  }

  lemma BothEngaged(e: EngagedOrders, x: Engagement, y: Engagement, u: real)
    requires TwoOrders(e, x, y)
    ensures var s := NOTHING.(engagements := map["N" := e], orders := map["X" := NewOrder(u), "Y" := NewOrder(u)]);
      EngageOrders(s, "N", Agreed(u), 0) == Waiting(e, x, y, u)
  {
    hide Engage;
    var o := Engage(NewOrder(u), Confirmation(200.0 * u, 0.0), 0);
    var most := 200.0 * u;
    EngagedAmount(u);
    var x', y' := x.(collateral := most), y.(collateral := most);
    var s := NOTHING.(engagements := map["N" := e], orders := map["X" := NewOrder(u), "Y" := NewOrder(u)]);
    var s1 := s.(orders := s.orders["X" := o], engagements := s.engagements["N" := e.(orders := [x', y])]);
    assert [x, y][0 := x'] == [x', y];
    OneEngaged(s, "N", 0, Agreed(u), 0, s1);
    var s2 := s1.(orders := s1.orders["Y" := o], engagements := s1.engagements["N" := e.(orders := [x', y'])]);
    assert [x', y][1 := y'] == [x', y'];
    OneEngaged(s1, "N", 1, Agreed(u), 0, s2);
    assert s2.orders == map["X" := o, "Y" := o];
    assert s2.engagements == map["N" := Engaged(e, x, y, u)];
    assert EngageFrom(s2, "N", 2, Agreed(u), 0) == s2;
  }

  lemma OneEngaged(s: State, id: string, i: nat, confirmations: map<string, Confirmation>, now: int, s': State)
    requires id in s.engagements && i < |s.engagements[id].orders|
    requires var e := s.engagements[id].orders[i];
      && e.order in s.orders && e.order in confirmations
      && var o := Engage(s.orders[e.order], confirmations[e.order], now);
         s' == s.(orders := s.orders[e.order := o],
                  engagements := s.engagements[id :=
                    s.engagements[id].(orders := s.engagements[id].orders[i := e.(collateral := o.engaged)])])
    ensures EngageFrom(s, id, i, confirmations, now) == EngageFrom(s', id, i + 1, confirmations, now)
  {
  }

  lemma EngagedAmount(u: real)
    ensures Engage(NewOrder(u), Confirmation(200.0 * u, 0.0), 0).engaged == 200.0 * u
  {
  }

  lemma Sent(e: EngagedOrders, x: Engagement, y: Engagement, u: real, c: Config) returns (r: Trace)
    requires TwoOrders(e, x, y)
    ensures IsTrace(r, c) && r.legal && !r.short && r.finished == {} && r.s.carryOvers == map[]
    ensures var es := Engaged(e, x, y, u);
      Stage(r.s, NewPositions(es), es.orders[0], es.orders[1], 0.0, u)
      && "N" in r.s.batches && r.s.batches["N"].volleySize == VolleyOf(NewPositions(es))
      && !r.s.batches["N"].cancelled && r.s.batches["N"].timestamp == 0
  {
    hide IsTrace, EngageOrders, SendBatch, Stage, TwoOrders, NewPositions, VolleyOf, Waiting, Engaged, NewOrder;
    r := Trace([], NOTHING, {}, true, false);
    NoSteps(c);
    r := Next(r, Arrive("X", NewOrder(u)), c);
    r := Next(r, Arrive("Y", NewOrder(u)), c);
    Arrived(r.s, u);
    RegistersLegally(r.s, e, x, y, u);
    r := Next(r, Register("N", e), c);
    r := Next(r, Confirm("N", Agreed(u), 0), c);
    BothEngaged(e, x, y, u);
    assert r.s == Waiting(e, x, y, u);
    IsWaiting(e, x, y, u);
    r := Next(r, BatchRuns.Send("N", 0), c);
    SentState(e, x, y, u, c);
  }

  /** What the state is when both orders arrived. */
  function BothArrived(u: real): State {
    NOTHING.(orders := map["X" := NewOrder(u), "Y" := NewOrder(u)])
  }

  lemma Arrived(s: State, u: real)
    requires s == NOTHING.(orders := map["X" := NewOrder(u).(lots := [])]["Y" := NewOrder(u).(lots := [])])
    ensures s == BothArrived(u)
  {
  }

  lemma RegistersLegally(s: State, e: EngagedOrders, x: Engagement, y: Engagement, u: real)
    requires TwoOrders(e, x, y) && s == BothArrived(u)
    ensures KnownOrders(e.orders, s.orders) && FairShares(e.orders) && Unfilled(e.orders)
    ensures s.engagements == map[]
  {
    hide FairShares, EngagementOk;
    TwoShares(x, y);
    assert forall d :: d in e.orders ==> d == x || d == y;
  }

  lemma IsWaiting(e: EngagedOrders, x: Engagement, y: Engagement, u: real)
    ensures "N" !in Waiting(e, x, y, u).batches
  {
  }

  lemma NoSteps(c: Config)
    ensures IsTrace(Trace([], NOTHING, {}, true, false), c)
  {
  }

  lemma SentState(e: EngagedOrders, x: Engagement, y: Engagement, u: real, c: Config)
    requires TwoOrders(e, x, y)
    ensures var s := SendBatch(Waiting(e, x, y, u), "N", 0, c).0; var es := Engaged(e, x, y, u);
      Stage(s, NewPositions(es), es.orders[0], es.orders[1], 0.0, u) && s.carryOvers == map[]
      && "N" in s.batches && s.batches["N"].volleySize == VolleyOf(NewPositions(es)) && !s.batches["N"].cancelled
      && s.batches["N"].timestamp == 0
  {
    hide VolleyOf, ToSend, EngagementOk, SharesFit;
    var es := Engaged(e, x, y, u);
    NothingCarriedIn(NewPositions(es));
    var symbol :| symbol in e.quantities;
    assert !NewPositions(es)[AssetKey(symbol, Buy)].cancelled;
    var none: CarryOvers := map[];
    assert none - NewPositions(es).Keys == none;
  }

  lemma NothingCarriedIn(positions: Positions)
    ensures CarryIn(positions, map[]) == positions
  {
  }

  // With a tolerance, lots that are almost used up are handed out whole

  /** Another execution of an asset, as a lot of its own. */
  function Extended(p: Position, x: Execution): Position {
    p.(quantity := p.quantity + x.quantity, realizedValue := p.realizedValue + ValueOf(x),
       fee := p.fee + x.fee, openLots := p.openLots + [NewLot(x)])
  }

  lemma Executes(
      s: State, k: AssetKey, x: Execution, now: int, positions: Positions, e: Engagement, d: Engagement, spent: real,
      u: real)
    requires Stage(s, positions, e, d, spent, u) && k in positions && "N" in s.batches
    requires positions[k].orderQuantity != 0.0 && s.batches["N"].volleySize != 0.0
    ensures k in s.batches["N"].positions && UpdateBatch(s.batches["N"], k, x, now).ok
    ensures var s' := s.(batches := s.batches["N" := UpdateBatch(s.batches["N"], k, x, now).batch]);
      Stage(s', positions[k := Extended(positions[k], x)], e, d, spent, u)
      && s'.batches["N"].volleySize == s.batches["N"].volleySize && s'.batches["N"].timestamp == now
  {
  }

  function WholeLotTaken(p: Position): Position
    requires |p.openLots| == 1
  {
    p.(openLots := [], closedLots := p.closedLots + [p.openLots[0].(remaining := 0.0)])
  }

  lemma OneAssetLot(p: Position, basket: seq<BasketAsset>, need: real, t: real)
    requires 0.0 < t && basket == [BasketAsset("A", 1.0)] && |p.openLots| == 1
    requires 0.0 < p.openLots[0].original && need <= p.openLots[0].remaining < need + t
    ensures var b := AllocateBasket(basket, Buy, map[A := p], need, t);
      && b.error.None? && b.positions == map[A := WholeLotTaken(p)]
      && b.spent == CostOf(BuildAssetLot(p.openLots[0], "A", p.openLots[0].remaining))
  {
    hide CostOf;
    var lot := p.openLots[0];
    var asked := Asked(basket[0], need);
    assert asked == need;
    assert p.openLots[1..] == [] && basket[1..] == [];
    var closed := p.closedLots + [lot.(remaining := 0.0)];
    var given := BuildAssetLot(lot, "A", lot.remaining);
    var rest := Allocate([], closed, "A", asked - lot.remaining, t);
    assert rest == Allocation([], closed, [], asked - lot.remaining, true);
    var a := Allocate(p.openLots, p.closedLots, "A", asked, t);
    assert a == Allocation([], closed, [given], asked - lot.remaining, true);
    SumByOne(given, CostOf);
  }

  lemma OneAssetRate(p: Position, e: Engagement, filled: real)
    requires e.basket == [BasketAsset("A", 1.0)] && "A" in e.fractions && "A" in e.contributions && 0.0 < e.quantity
    requires filled == p.quantity * e.fractions["A"] <= e.contributions["A"] <= e.quantity
    ensures var rate := BasketRate(e.basket, Buy, map[A := p], e);
      rate.Rate? && FilledAt(e, rate.r) == filled
  {
    var q := e.quantity;
    assert 1.0 * q == q;
    assert BasketRate(e.basket, Buy, map[A := p], e) == AssetRate(e.basket[0], Buy, map[A := p], e)
        == Rate(filled / q);
    assert filled / q <= 1.0 && filled / q * q == filled;
  }

  /** One fill of an order with a one-asset basket from a position of one lot, which the tolerance hands out whole. */
  lemma TakesWholeLot(p: Position, e: Engagement, o: SolverOrder, now: int, th: Thresholds, filled: real, cost: real)
    requires 0.0 < th.zero && 1.0 <= th.fill && 1.0 <= th.mint && |p.openLots| == 1 && o.side == Buy
    requires e.basket == [BasketAsset("A", 1.0)] && "A" in e.fractions && "A" in e.contributions && 0.0 < e.quantity
    requires filled == p.quantity * e.fractions["A"] <= e.contributions["A"] <= e.quantity
    requires th.zero <= filled - e.filled <= p.openLots[0].remaining < filled - e.filled + th.zero
    requires 0.0 < p.openLots[0].original && o.status.Engaged?
    requires cost == CostOf(BuildAssetLot(p.openLots[0], "A", p.openLots[0].remaining))
    requires o.spent + cost <= TotalCollateral(o) && 0.0 < TotalCollateral(o)
    ensures var f := FillIndexOrder(map[A := p], e, o, now, th);
      && f.error.None? && f.engagement == e.(filled := filled) && f.positions == map[A := WholeLotTaken(p)]
      && f.order.side == o.side && f.order.status.Engaged?
      && f.order.spent == o.spent + cost && TotalCollateral(f.order) == TotalCollateral(o)
  {
    hide BasketRate, AllocateBasket, FilledAt, CostOf;
    OneAssetRate(p, e, filled);
    var rate := BasketRate(e.basket, o.side, map[A := p], e).r;
    OneAssetLot(p, e.basket, FilledAt(e, rate) - e.filled, th.zero);
    AtMostOne(o.spent + cost, TotalCollateral(o));
  }

  lemma AtMostOne(x: real, y: real)
    requires x <= y && 0.0 < y
    ensures x / y <= 1.0
  {
  }

  lemma FirstFills(s: State, p: Position, x: Engagement, y: Engagement, spent: real, u: real, th: Thresholds,
      filled: real, cost: real)
    requires Stage(s, map[A := p], x, y, spent, u) && 0.0 < u && spent + cost <= 200.0 * u
    requires 0.0 < th.zero && 1.0 <= th.fill && 1.0 <= th.mint && |p.openLots| == 1
    requires x.basket == [BasketAsset("A", 1.0)] && "A" in x.fractions && "A" in x.contributions && 0.0 < x.quantity
    requires filled == p.quantity * x.fractions["A"] <= x.contributions["A"] <= x.quantity
    requires th.zero <= filled - x.filled <= p.openLots[0].remaining < filled - x.filled + th.zero
    requires 0.0 < p.openLots[0].original
    requires cost == CostOf(BuildAssetLot(p.openLots[0], "A", p.openLots[0].remaining))
    ensures CanFill(s, "N", 0) && !RunsShort(FillOf(s, "N", 0, th))
    ensures var s' := AfterFill(s, "N", 0, FillOf(s, "N", 0, th));
      Stage(s', map[A := WholeLotTaken(p)], x.(filled := filled), y, spent + cost, u)
      && s'.batches["N"].volleySize == s.batches["N"].volleySize
  {
    hide FillIndexOrder, CostOf;
    TakesWholeLot(p, x, s.orders["X"], s.batches["N"].timestamp, th, filled, cost);
    var x' := x.(filled := filled);
    assert [x, y][0 := x'] == [x', y];
  }

  /** The order asks for a whole share of an asset none of which is left. */
  lemma SecondRunsShort(s: State, p: Position, x: Engagement, y: Engagement, spent: real, u: real, th: Thresholds,
      filled: real)
    requires Stage(s, map[A := p], x, y, spent, u) && EngagementOk(y) && y.filled == 0.0
    requires 0.0 < th.zero && p.openLots == []
    requires y.basket == [BasketAsset("A", 1.0)] && "A" in y.fractions && "A" in y.contributions && 0.0 < y.quantity
    requires filled == p.quantity * y.fractions["A"] <= y.contributions["A"] <= y.quantity
    requires th.zero < filled
    ensures CanFill(s, "N", 1) && RunsShort(FillOf(s, "N", 1, th))
  {
    hide FillIndexOrder, BasketRate, FilledAt, EngagementOk;
    var o := s.orders["Y"];
    OneAssetRate(p, y, filled);
    var units := FilledAt(y, BasketRate(y.basket, Buy, map[A := p], y).r) - y.filled;
    assert units == filled;
    assert Available(p.openLots) == 0.0;
    assert Asked(y.basket[0], units) == filled;
    assert Lacks(map[A := p], Buy, y.basket[0], units, th.zero);
    assert y.basket[0] in y.basket;
    FillFailsExactly(map[A := p], y, o, s.batches["N"].timestamp, th);
  }

  // The run: two executions of ten tolerances; the first order takes each of them whole for nine tenths and a bit

  function OneAssetOrders(t: real): EngagedOrders {
    var basket := [BasketAsset("A", 1.0)];
    EngagedOrders(map["A" := 20.0 * t], map["A" := 1.0],
                  [Part("X", basket, map["A" := 0.91], t), Part("Y", basket, map["A" := 0.09], t)])
  }

  function TenMore(t: real): Execution { Execution("E", "L", None, 1.0, 10.0 * t, 0.0) }

  lemma OneAssetPositions(e: EngagedOrders, t: real)
    requires 0.0 < t && e.quantities == map["A" := 20.0 * t] && e.prices == map["A" := 1.0]
    ensures Priced(e) && NewPositions(e) == map[A := NewPosition(1.0, 20.0 * t)]
    ensures VolleyOf(NewPositions(e)) == 20.0 * t
  {
    var positions := NewPositions(e);
    assert positions == map[A := NewPosition(1.0, 20.0 * t)];
    assert positions.Keys == {A};
    SumOverTake({A}, VolleyAt(positions), A);
    assert {A} - {A} == {};
  }

  lemma TenCost(t: real)
    requires 0.0 < t
    ensures var lot := NewLot(TenMore(t)); CostOf(BuildAssetLot(lot, "A", lot.remaining)) == 10.0 * t
  {
    var lot := NewLot(TenMore(t));
    assert lot.fee * (lot.remaining / lot.original) == 0.0;
  }

  /** One execution, taken whole by the first order. */
  lemma TakesTenMore(
      r: Trace, p: Position, x: Engagement, y: Engagement, spent: real, t: real, c: Config, filled: real)
    returns (r': Trace)
    requires IsTrace(r, c) && r.legal && !r.short && r.finished == {}
    requires Stage(r.s, map[A := p], x, y, spent, t) && r.s.batches["N"].volleySize == 20.0 * t
    requires p.openLots == [] && p.orderQuantity == 20.0 * t
    requires 0.0 < t && c.th.zero == t && 1.0 <= c.th.fill && 1.0 <= c.th.mint && spent <= 100.0 * t
    requires x.basket == [BasketAsset("A", 1.0)] && x.fractions == map["A" := 0.91]
    requires x.contributions == map["A" := 100.0 * t] && x.quantity == 100.0 * t
    requires filled == 0.91 * (p.quantity + 10.0 * t) <= 100.0 * t && filled - x.filled == 9.1 * t
    ensures IsTrace(r', c) && r'.legal && !r'.short && r'.finished == {}
    ensures Stage(r'.s, map[A := WholeLotTaken(Extended(p, TenMore(t)))], x.(filled := filled), y, spent + 10.0 * t, t)
    ensures r'.s.batches["N"].volleySize == 20.0 * t
  {
    hide IsTrace, FillOf, AfterFill, UpdateBatch, CostOf, KnownOrders, FairShares, Unfilled, SendBatch, EngageOrders,
      NewEngagement, Cleanup, Complete, TotalCollateral;
    Executes(r.s, A, TenMore(t), 0, map[A := p], x, y, spent, t);
    r' := Next(r, Execute("N", A, TenMore(t), 0), c);
    var p1 := Extended(p, TenMore(t));
    assert map[A := p][A := p1] == map[A := p1];
    assert [] + [NewLot(TenMore(t))] == [NewLot(TenMore(t))];
    TenCost(t);
    FirstFills(r'.s, p1, x, y, spent, t, c.th, filled, 10.0 * t);
    r' := Next(r', FillNext("N", 0), c);
  }

  /** With any tolerance there is a legal run in which a fill runs short. */
  lemma ToleranceRunsShort(c: Config, t: real) returns (r: Trace)
    requires 0.0 < t && c.th.zero == t && 1.0 <= c.th.fill && 1.0 <= c.th.mint
    ensures LegalRun(r.steps, c) && EverShort(r.steps, c)
  {
    hide Stage, Run, Finished, LegalRun, EverShort, FillOf, VolleyOf, Apply, EngagementOk, CanFill, KnownOrders,
      FairShares, Unfilled, UpdateBatch, TwoOrders, NewPositions;
    var e := OneAssetOrders(t);
    var x, y := e.orders[0], e.orders[1];
    var basket := [BasketAsset("A", 1.0)];
    OrdersAreOk(e, t);
    r := Sent(e, x, y, t, c);
    OneAssetPositions(Engaged(e, x, y, t), t);
    var x', y' := x.(collateral := 200.0 * t), y.(collateral := 200.0 * t);
    var p := NewPosition(1.0, 20.0 * t);
    r := TakesTenMore(r, p, x', y', 0.0, t, c, 9.1 * t);
    var p1 := WholeLotTaken(Extended(p, TenMore(t)));
    r := TakesTenMore(r, p1, x'.(filled := 9.1 * t), y', 10.0 * t, t, c, 18.2 * t);
    var p2 := WholeLotTaken(Extended(p1, TenMore(t)));
    SecondRunsShort(r.s, p2, x'.(filled := 9.1 * t).(filled := 18.2 * t), y', 20.0 * t, t, c.th, 1.8 * t);
    r := Next(r, FillNext("N", 1), c);
  }

  lemma OrdersAreOk(e: EngagedOrders, t: real)
    requires 0.0 < t && e == OneAssetOrders(t)
    ensures TwoOrders(e, e.orders[0], e.orders[1])
    ensures EngagementOk(e.orders[1].(collateral := 200.0 * t))
  {
    OneAssetPositions(e, t);
  }

  /** No legal run ever has a fill that runs short if and only if there is no tolerance. */
  lemma NeverShortExactly(t: real)
    requires 0.0 <= t
    ensures t == 0.0 <==> forall steps, c: Config :: c.th.zero == t && LegalRun(steps, c) ==> !EverShort(steps, c)
  {
    if t == 0.0 {
      forall steps, c: Config | c.th.zero == t && LegalRun(steps, c) ensures !EverShort(steps, c) {
        NeverShortOnRuns(steps, c, t);
      }
    } else {
      var c := Config(Thresholds(t, 1.0, 1.0), 0, 1);
      var r := ToleranceRunsShort(c, t);
      assert c.th.zero == t && LegalRun(r.steps, c) && EverShort(r.steps, c);
    }
  }

  // A late execution, whatever the tolerance

  const BASKET := [BasketAsset("A", 1.0), BasketAsset("B", 1.0)]
  const TEN := Execution("E", "L", None, 1.0, 10.0, 0.0)
  const EATER := Part("Y", BASKET, map["A" := 1.0, "B" := 1.0], 1.0).(collateral := 200.0)

  /** One order takes all of what is filled of two assets, the other one nothing. */
  const BOTH := EngagedOrders(
    map["A" := 20.0, "B" := 20.0], map["A" := 1.0, "B" := 1.0],
    [Part("X", BASKET, map["A" := 0.0, "B" := 0.0], 1.0), EATER.(collateral := 0.0)])

  lemma TwoAssetPositions(e: EngagedOrders)
    requires e.quantities == map["A" := 20.0, "B" := 20.0] && e.prices == map["A" := 1.0, "B" := 1.0]
    ensures Priced(e) && NewPositions(e) == map[A := NewPosition(1.0, 20.0), B := NewPosition(1.0, 20.0)]
    ensures VolleyOf(NewPositions(e)) == 40.0
  {
    var positions := NewPositions(e);
    assert positions == map[A := NewPosition(1.0, 20.0), B := NewPosition(1.0, 20.0)];
    assert positions.Keys == {A, B};
    SumOverTake({A, B}, VolleyAt(positions), A);
    SumOverTake({B}, VolleyAt(positions), B);
    assert {A, B} - {A} == {B} && {B} - {B} == {};
  }

  lemma BothAreOk()
    ensures TwoOrders(BOTH, BOTH.orders[0], BOTH.orders[1])
  {
    hide BasketOk, NewPositions, VolleyOf, SharesFit;
    TwoAssetPositions(BOTH);
    TwoAssetBasketIsOk();
    AllOrNothing(BOTH.orders[0].fractions, BOTH.orders[1].fractions);
    assert "A" in BOTH.quantities;
    assert forall d :: d in BOTH.orders ==> d == BOTH.orders[0] || d == BOTH.orders[1];
  }

  lemma TwoAssetBasketIsOk()
    ensures BasketOk(BASKET)
  {
  }

  lemma AllOrNothing(fx: map<string, real>, fy: map<string, real>)
    requires fx == map["A" := 0.0, "B" := 0.0] && fy == map["A" := 1.0, "B" := 1.0]
    ensures SharesFit(fx, fy)
  {
  }

  const ENGAGED := NewOrder(1.0).(remaining := 0.0, engaged := 200.0, status := Status.Engaged)
  const CARRIED := ENGAGED.(engaged := 0.0, carried := 200.0)

  /** The batch has these positions and its second order is as it was engaged, and so far unfilled. */
  ghost predicate Hungry(s: State, pa: Position, pb: Position, o: SolverOrder) {
    && "N" in s.batches && "N" in s.engagements && "X" in s.orders && "Y" in s.orders
    && s.batches["N"].positions == map[A := pa, B := pb] && s.batches["N"].volleySize == 40.0
    && s.batches["N"].timestamp == 0
    && |s.engagements["N"].orders| == 2 && s.engagements["N"].orders[0].order == "X"
    && s.engagements["N"].orders[1] == EATER && s.orders["Y"] == o
  }

  lemma StageIsHungry(s: State, pa: Position, pb: Position, x: Engagement, y: Engagement)
    requires Stage(s, map[A := pa, B := pb], x, y, 0.0, 1.0) && y == EATER
    requires s.batches["N"].volleySize == 40.0 && s.batches["N"].timestamp == 0
    ensures Hungry(s, pa, pb, ENGAGED)
  {
  }

  /** The batch of two assets with ten executed of the second one. */
  lemma TenOfB(c: Config) returns (r: Trace)
    ensures IsTrace(r, c) && r.legal && !r.short && r.finished == {}
    ensures Hungry(r.s, NewPosition(1.0, 20.0), Extended(NewPosition(1.0, 20.0), TEN), ENGAGED)
  {
    hide IsTrace, UpdateBatch, Stage, FillOf, AfterFill, SendBatch, EngageOrders, NewEngagement, Cleanup, Complete,
      TwoOrders, NewPositions, VolleyOf, Hungry;
    BothAreOk();
    var x, y := BOTH.orders[0].(collateral := 200.0), EATER;
    r := Sent(BOTH, BOTH.orders[0], BOTH.orders[1], 1.0, c);
    assert Engaged(BOTH, BOTH.orders[0], BOTH.orders[1], 1.0) == BOTH.(orders := [x, y]);
    TwoAssetPositions(BOTH.(orders := [x, y]));
    var p := NewPosition(1.0, 20.0);
    Executes(r.s, B, TEN, 0, map[A := p, B := p], x, y, 0.0, 1.0);
    assert map[A := p, B := p][B := Extended(p, TEN)] == map[A := p, B := Extended(p, TEN)];
    r := Next(r, Execute("N", B, TEN, 0), c);
    StageIsHungry(r.s, p, Extended(p, TEN), x, y);
  }

  /** Both assets are cancelled and the batch completes: its lots are carried over, its quantities stay. */
  lemma CompletesWithTen(r: Trace, pa: Position, pb: Position, c: Config) returns (r': Trace)
    requires IsTrace(r, c) && r.legal && Hungry(r.s, pa, pb, ENGAGED) && pa.openLots == []
    ensures IsTrace(r', c) && r'.legal && "N" in r'.finished
    ensures r'.steps == r.steps
      + [CancelOrder("N", A, 0.0, true), CancelOrder("N", B, 0.0, true), Finish("N", 0)]
    ensures Hungry(r'.s, Left(pa), Left(pb), CARRIED)
  {
    hide IsTrace, Complete, UpdateBatch, FillOf, AfterFill, SendBatch, EngageOrders, NewEngagement, Cleanup, Hungry,
      CancelAsset, Apply;
    CancelsA(r.s, pa, pb, ENGAGED, c);
    r' := Next(r, CancelOrder("N", A, 0.0, true), c);
    CancelsB(r'.s, Cancelled(pa), pb, ENGAGED, c);
    r' := Next(r', CancelOrder("N", B, 0.0, true), c);
    CompleteLeaves(r'.s, Cancelled(pa), Cancelled(pb), c);
    r' := Next(r', Finish("N", 0), c);
  }

  function Cancelled(p: Position): Position { p.(cancelled := true, quantityCancelled := 0.0) }

  function Left(p: Position): Position { Cancelled(p).(openLots := LeftBehind(p.openLots)) }

  lemma CancelsA(s: State, pa: Position, pb: Position, o: SolverOrder, c: Config)
    requires Hungry(s, pa, pb, o)
    ensures Hungry(Apply(s, CancelOrder("N", A, 0.0, true), c), Cancelled(pa), pb, o)
  {
    assert map[A := pa, B := pb][A := Cancelled(pa)] == map[A := Cancelled(pa), B := pb];
  }

  lemma CancelsB(s: State, pa: Position, pb: Position, o: SolverOrder, c: Config)
    requires Hungry(s, pa, pb, o)
    ensures Hungry(Apply(s, CancelOrder("N", B, 0.0, true), c), pa, Cancelled(pb), o)
  {
    assert map[A := pa, B := pb][B := Cancelled(pb)] == map[A := pa, B := Cancelled(pb)];
  }

  lemma CompleteLeaves(s: State, pa: Position, pb: Position, c: Config)
    requires Hungry(s, pa, pb, ENGAGED)
    ensures var pa', pb' := pa.(openLots := LeftBehind(pa.openLots)), pb.(openLots := LeftBehind(pb.openLots));
      Hungry(Apply(s, Finish("N", 0), c), pa', pb', CARRIED)
  {
    hide CarryOut, CarryAll, Continued, LeftBehind, DistinctKeys;
    assert Emptied(map[A := pa, B := pb]) == map[A := pa.(openLots := LeftBehind(pa.openLots)),
                                                 B := pb.(openLots := LeftBehind(pb.openLots))];
    var promoted := Promote(s.orders, DueMints(s, 0, c.mintWait));
    var es := s.engagements["N"].orders;
    assert promoted["Y"] == s.orders["Y"];
    GoesOn(es, promoted);
    CarryAllOnlyCarries(promoted, Continued(es, promoted));
    CarryAllCarriesOnce(promoted, Continued(es, promoted), "Y");
  }

  lemma GoesOn(es: seq<Engagement>, orders: map<string, SolverOrder>)
    requires |es| == 2 && es[0].order == "X" && es[1].order == "Y" && "Y" in orders && Continues(orders["Y"])
    ensures "Y" in Continued(es, orders) && DistinctKeys(Continued(es, orders))
  {
    ContinuedOnce(es, orders);
    assert Continued(es[1..], orders) == ["Y"] + Continued(es[2..], orders) by {
      assert es[1..][0] == es[1] && es[1..][1..] == es[2..];
    }
    assert Continued(es, orders)[|Continued(es, orders)| - |Continued(es[1..], orders)|] == "Y";
  }

  /** Sharing in ten units of two assets the order asks for ten of each. It runs short when nothing is left of the
      second one, with ten of the first one in its hands. */
  lemma AsksForTen(pa: Position, pb: Position, lot: BatchLot, o: SolverOrder, now: int, th: Thresholds)
    requires 0.0 <= th.zero < 10.0 && pa.quantity == 10.0 && pb.quantity == 10.0
    requires pa.openLots == [NewLot(TEN)] && pb.openLots == [lot]
    requires lot.remaining == 0.0 && lot.original == 10.0 && lot.fee == 0.0
    requires o.side == Buy && o.status.Engaged? && o.lots == []
    ensures var f := FillIndexOrder(map[A := pa, B := pb], EATER, o, now, th);
      RunsShort(f) && f.order == o.(lots := f.order.lots) && SumBy(f.order.lots, CostOf) == 10.0
  {
    hide BasketRate, FilledAt, AllocateBasket, CostOf;
    TenRate(pa, pb);
    TakesTen(pa, pb, lot, 10.0, th.zero);
    var b := AllocateBasket(BASKET, Buy, map[A := pa, B := pb], 10.0, th.zero);
    assert [] + b.lots == b.lots;
  }

  lemma TenRate(pa: Position, pb: Position)
    requires pa.quantity == 10.0 && pb.quantity == 10.0
    ensures var rate := BasketRate(BASKET, Buy, map[A := pa, B := pb], EATER);
      rate.Rate? && FilledAt(EATER, rate.r) - EATER.filled == 10.0
  {
    var positions := map[A := pa, B := pb];
    assert AssetRate(BASKET[0], Buy, positions, EATER) == Rate(0.1);
    assert AssetRate(BASKET[1], Buy, positions, EATER) == Rate(0.1);
    assert BASKET[1..] == [BasketAsset("B", 1.0)];
  }

  lemma TakesTen(pa: Position, pb: Position, lot: BatchLot, units: real, t: real)
    requires 0.0 <= t < 10.0 && units == 10.0 && pa.openLots == [NewLot(TEN)] && pb.openLots == [lot]
    requires lot.remaining == 0.0 && lot.original == 10.0 && lot.fee == 0.0
    ensures var b := AllocateBasket(BASKET, Buy, map[A := pa, B := pb], units, t);
      b.error == Some(CouldntAllocate(10.0)) && SumBy(b.lots, CostOf) == 10.0
  {
    hide CostOf, Allocate;
    var positions := map[A := pa, B := pb];
    assert Asked(BASKET[0], units) == 10.0 && Asked(BASKET[1], units) == 10.0;
    assert BASKET[1..] == [BASKET[1]] && [BASKET[1]][0] == BASKET[1];
    var first := Allocate(pa.openLots, pa.closedLots, "A", 10.0, t);
    OneLotWhole(NewLot(TEN), pa.closedLots, "A", 10.0, t);
    var positions' := positions[A := pa.(openLots := first.open, closedLots := first.closed)];
    assert positions'[B] == pb;
    OneLotWhole(lot, pb.closedLots, "B", 10.0, t);
    SumByAppend(first.lots, AllocateBasket([BASKET[1]], Buy, positions', units, t).lots, CostOf);
  }

  /** All of a lot is handed out, and what it does not cover is left. */
  lemma OneLotWhole(lot: BatchLot, closed: seq<BatchLot>, symbol: string, need: real, t: real)
    requires 0.0 <= t && lot.original == 10.0 && lot.fee == 0.0 && lot.remaining <= need
    ensures var a := Allocate([lot], closed, symbol, need, t);
      a.ok && a.left == need - lot.remaining && SumBy(a.lots, CostOf) == lot.remaining * lot.price
  {
    assert [lot][1..] == [];
    var given := BuildAssetLot(lot, symbol, lot.remaining);
    assert lot.fee * (lot.remaining / lot.original) == 0.0;
    SumByOne(given, CostOf);
    assert [given] + [] == [given];
    assert Allocate([], closed + [lot.(remaining := 0.0)], symbol, need - lot.remaining, t).lots == [];
  }

  lemma LateExecution(s: State, pa: Position, pb: Position, o: SolverOrder, c: Config)
    requires Hungry(s, pa, pb, o) && pa.orderQuantity != 0.0
    ensures "N" in s.batches && UpdateBatch(s.batches["N"], A, TEN, 0).ok
    ensures Hungry(Apply(s, Execute("N", A, TEN, 0), c), Extended(pa, TEN), pb, o)
  {
    assert map[A := pa, B := pb][A := Extended(pa, TEN)] == map[A := Extended(pa, TEN), B := pb];
  }

  /** The second order's fill runs short with ten in its hands. */
  ghost predicate HandsOutTen(s: State, th: Thresholds) {
    && CanFill(s, "N", 1) && RunsShort(FillOf(s, "N", 1, th))
    && SumBy(FillOf(s, "N", 1, th).order.lots, CostOf) == 10.0
  }

  lemma LateFill(s: State, pa: Position, pb: Position, o: SolverOrder, c: Config)
    requires Hungry(s, Extended(Left(pa), TEN), Left(pb), o) && 0.0 <= c.th.zero < 10.0
    requires pa == NewPosition(1.0, 20.0) && pb == Extended(pa, TEN)
    requires o.side == Buy && o.status.Engaged? && o.lots == []
    ensures HandsOutTen(s, c.th)
  {
    hide FillIndexOrder, CostOf;
    var lot := NewLot(TEN).(remaining := 0.0);
    assert [] + [NewLot(TEN)] == [NewLot(TEN)];
    AsksForTen(Extended(Left(pa), TEN), Left(pb), lot, o, 0, c.th);
  }

  /** A batch completes with a lot of the second asset, which is carried over; then a lot of the first asset is reported
      late. The next fill hands that one out, and runs short asking for the other one again. */
  lemma LateExecutionRunsShort(c: Config) returns (r: Trace, step: Step)
    requires 0.0 <= c.th.zero < 10.0
    ensures LegalRun(r.steps, c) && step.Execute? && 0.0 < step.x.quantity && step.id in Finished(r.steps)
    ensures Run(r.steps + [step], c) == Apply(Run(r.steps, c), step, c)
    ensures var s, s' := Run(r.steps, c), Run(r.steps + [step], c);
      && step.id in s.batches && UpdateBatch(s.batches[step.id], step.k, step.x, step.now).ok
      && step.id == "N" && "N" in s'.batches && "Y" in s'.orders && s'.orders["Y"] == CARRIED
      && s'.batches["N"].timestamp == 0
      && HandsOutTen(s', c.th) && s'.engagements["N"].orders[1] == EATER
    ensures EverShort(r.steps + [step] + [FillNext("N", 1)], c)
  {
    hide Run, Finished, LegalRun, EverShort, FillOf, Apply, CanFill, UpdateBatch, Legal, Extended, Left, RunsShort,
      CostOf, Hungry;
    r := TenOfB(c);
    var pa := NewPosition(1.0, 20.0);
    var pb := Extended(pa, TEN);
    r := CompletesWithTen(r, pa, pb, c);
    step := Execute("N", A, TEN, 0);
    HasValue(pa);
    LateExecution(r.s, Left(pa), Left(pb), CARRIED, c);
    Longer(r.steps, step, c);
    LateFill(Apply(r.s, step, c), pa, pb, CARRIED, c);
    IsHungry(Apply(r.s, step, c), Extended(Left(pa), TEN), Left(pb), CARRIED);
    ThenShort(r, step, "N", 1, c);
  }

  lemma HasValue(p: Position)
    requires p == NewPosition(1.0, 20.0)
    ensures Left(p).orderQuantity == 20.0
  {
  }

  lemma IsHungry(s: State, pa: Position, pb: Position, o: SolverOrder)
    requires Hungry(s, pa, pb, o)
    ensures "N" in s.batches && "N" in s.engagements && "Y" in s.orders && s.orders["Y"] == o
    ensures s.batches["N"].timestamp == 0 && |s.engagements["N"].orders| == 2
    ensures s.engagements["N"].orders[1] == EATER
  {
  }
}
