/** The fill rates that are reported for an order, from one fill to a later one. */
module BatchReports {
  import opened Common
  import opened BatchLots
  import opened BatchFillSpec
  import opened BatchFillTheory
  import opened BatchManagerSpec
  import opened BatchRuns
  import opened BatchRates
  import BatchExamples
  import BatchShortage

  predicate Reports(s: State, id: string, i: nat, key: string, th: Thresholds) {
    CanFill(s, id, i) && s.engagements[id].orders[i].order == key && FillOf(s, id, i, th).request.Some?
  }

  function Reported(s: State, id: string, i: nat, key: string, th: Thresholds): real
    requires Reports(s, id, i, key, th)
  {
    FillOf(s, id, i, th).request.value.rate
  }

  /** What a fill reports is the spent share of all collateral but the carried part. */
  lemma ReportedRate(s: State, id: string, i: nat, key: string, th: Thresholds)
    requires Bounded(s) && Reports(s, id, i, key, th) && th.zero == 0.0
    ensures var o := s.orders[key]; var f := FillOf(s, id, i, th);
      && Advances(o, f.order) && f.order.carried == o.carried && Worth(o) != o.carried
      && Reported(s, id, i, key, th) == f.order.spent / (Worth(o) - o.carried)
  {
    hide FillIndexOrder, Worth, BoughtPositions;
    var e := s.engagements[id].orders[i];
    assert GoodEngagement(s.engagements[id].orders);
    assert EngagementOk(e);
    FillAdvances(s.batches[id].positions, e, s.orders[key], s.batches[id].timestamp, th);
  }

  lemma ShareGrows(x: real, v: real, y: real, w: real)
    requires 0.0 <= x <= y && 0.0 < w <= v
    ensures x * w <= y * v
  {
    assert x * w <= x * v <= y * v;
  }

  lemma ShareOfSame(x: real, v: real, w: real)
    requires 0.0 < x
    ensures x * w <= x * v <==> w <= v
  {
  }

  /** Two fills report an order's rate, with any agreed steps between them. The rate falls exactly when what is spent
      grew by a smaller share than the collateral that counts, which grows by what answers bring back of late spending
      and by what is carried less. So it never falls when no less is carried, beyond what was brought back; and when
      nothing is spent in between exactly then. */
  lemma ReportsFallExactly(
      s: State, id: string, i: nat, steps: seq<Step>, id': string, i': nat, c: Config, key: string)
    returns (s': State)
    requires Bounded(s) && c.th.zero == 0.0 && Reports(s, id, i, key, c.th)
    requires AgreedFrom(s, [FillNext(id, i)] + steps, c, key)
    requires var s' := RunFrom(s, [FillNext(id, i)] + steps, c);
      && Reports(s', id', i', key, c.th)
      && 0.0 <= s.orders[key].spent
      && s.orders[key].carried < Worth(s.orders[key]) && s'.orders[key].carried < Worth(s'.orders[key])
    ensures s' == RunFrom(s, [FillNext(id, i)] + steps, c)
    ensures var before, after := s.orders[key], s'.orders[key];
      var first, second := FillOf(s, id, i, c.th).order.spent, FillOf(s', id', i', c.th).order.spent;
      var r, r' := Reported(s, id, i, key, c.th), Reported(s', id', i', key, c.th);
      var gained := GainedFrom(s, [FillNext(id, i)] + steps, c, key);
      && first <= second
      && Worth(after) == Worth(before) + gained
      && (r <= r' <==> first * (Worth(after) - after.carried) <= second * (Worth(before) - before.carried))
      && (before.carried + gained <= after.carried ==> r <= r')
      && (first == second && 0.0 < first ==> (r <= r' <==> before.carried + gained <= after.carried))
  {
    hide FillOf, AfterFill, Worth, Bounded, Agreed, AgreedFrom, RunFrom, GainedFrom;
    var more := [FillNext(id, i)] + steps;
    s' := RunFrom(s, more, c);
    ReportedRate(s, id, i, key, c.th);
    FirstThenRest(s, id, i, steps, c, key);
    var s1 := AfterFill(s, id, i, FillOf(s, id, i, c.th));
    RunMoves(s1, steps, c, key);
    ReportedRate(s', id', i', key, c.th);
    var before, after := s.orders[key], s'.orders[key];
    var first, second := FillOf(s, id, i, c.th).order.spent, FillOf(s', id', i', c.th).order.spent;
    var v, w := Worth(before) - before.carried, Worth(after) - after.carried;
    ShareOrder(first, v, second, w);
    if w <= v {
      ShareGrows(first, v, second, w);
    }
    if first == second && 0.0 < first {
      ShareOfSame(first, v, w);
    }
  }

  lemma FirstThenRest(s: State, id: string, i: nat, steps: seq<Step>, c: Config, key: string)
    requires Bounded(s) && CanFill(s, id, i) && c.th.zero == 0.0 && s.engagements[id].orders[i].order == key
    requires AgreedFrom(s, [FillNext(id, i)] + steps, c, key)
    ensures var s1 := AfterFill(s, id, i, FillOf(s, id, i, c.th));
      && Bounded(s1) && AgreedFrom(s1, steps, c, key)
      && RunFrom(s, [FillNext(id, i)] + steps, c) == RunFrom(s1, steps, c)
      && GainedFrom(s, [FillNext(id, i)] + steps, c, key) == GainedFrom(s1, steps, c, key)
      && key in s1.orders && s1.orders[key] == FillOf(s, id, i, c.th).order
  {
    hide FillOf, Bounded;
    assert ([FillNext(id, i)] + steps)[1..] == steps;
    FillMovesOn(s, id, i, c.th, key);
    assert Apply(s, FillNext(id, i), c) == AfterFill(s, id, i, FillOf(s, id, i, c.th));
  }

  // A late lot in a completed batch makes the reported rate fall

  const KEY := AssetKey("A", Buy)
  const FIVE := Execution("E", "L", None, 1.0, 5.0, 0.0)
  const READY := SolverOrder(Buy, 200.0, 0.0, 0.0, 200.0, 0.0, 0.0, 0, Ready, Some("P"), [])
  const ENGAGED := READY.(remaining := 100.0, engaged := 100.0, status := Engaged)
  const CARRIED := ENGAGED.(engaged := 0.0, carried := 100.0)
  const LATE := CARRIED.(engaged := -5.0, spent := 5.0, filled := 5.0,
                         lots := [BuildAssetLot(NewLot(FIVE), "A", 5.0)])
  const AGAIN := LATE.(remaining := 90.0, engaged := 110.0, carried := 0.0)

  /** The order's part in a batch of one asset, with a hundred units at most. */
  function Part(filled: real, collateral: real): Engagement {
    BatchExamples.OnlyPart("X", "A", 100.0).(filled := filled, collateral := collateral)
  }

  const NEW := NewPosition(1.0, 20.0)
  const CANCELLED := NEW.(cancelled := true)

  /** The batch with its one position, and the only order and its part in it. */
  ghost predicate At(s: State, id: string, p: Position, e: Engagement, o: SolverOrder) {
    && s.orders == map["X" := o] && s.carryOvers == map[]
    && id in s.batches && s.batches[id].positions == map[KEY := p] && s.batches[id].volleySize == 20.0
    && s.batches[id].timestamp == 0
    && id in s.engagements && s.engagements[id].orders == [e]
  }

  /** There is no other batch. */
  ghost predicate Alone(s: State) {
    s.batches.Keys == {"M"} == s.engagements.Keys
  }

  ghost predicate Low(th: Thresholds) {
    th.zero == 0.0 && 0.1 <= th.fill && 0.1 <= th.mint
  }

  /** A first fill, with nothing executed yet, reports what was spent before. */
  lemma FillsNothing(e: Engagement, o: SolverOrder, th: Thresholds)
    requires Low(th) && e == Part(0.0, e.collateral) && o.side == Buy && o.status.Engaged? && o.timestamp == 0
    requires 0.0 < TotalCollateral(o) && o.spent / TotalCollateral(o) <= 0.1
    ensures var f := FillIndexOrder(map[KEY := NEW], e, o, 0, th);
      && f.positions == map[KEY := NEW] && f.engagement == e && f.order == o && !f.mintable && f.error.None?
      && f.request.Some? && f.request.value.rate == o.spent / TotalCollateral(o)
      && f.request.value.spent == 0.0 && f.request.value.quantity == 0.0
  {
    hide BasketRate, FilledAt, AllocateBasket;
    BatchExamples.OnlyRate(NEW, e, "A", 0.0);
    TakesNothing(e.basket, 0.0, th.zero);
    assert o.lots + [] == o.lots;
  }

  lemma TakesNothing(basket: seq<BasketAsset>, units: real, t: real)
    requires basket == [BasketAsset("A", 1.0)] && units == 0.0 == t
    ensures AllocateBasket(basket, Buy, map[KEY := NEW], units, t) == BasketAllocation(map[KEY := NEW], [], 0.0, None)
  {
    assert Asked(basket[0], units) == 0.0 && basket[1..] == [];
    assert Allocate([], [], "A", 0.0, t) == Allocation([], [], [], 0.0, true);
    assert map[KEY := NEW][KEY := NEW.(openLots := [], closedLots := [])] == map[KEY := NEW];
  }

  lemma FirstFill(s: State, id: string, e: Engagement, o: SolverOrder, c: Config)
    requires At(s, id, NEW, e, o) && Low(c.th) && e == Part(0.0, e.collateral)
    requires o.side == Buy && o.status.Engaged? && o.timestamp == 0
    requires 0.0 < TotalCollateral(o) && o.spent / TotalCollateral(o) <= 0.1
    ensures Reports(s, id, 0, "X", c.th) && Reported(s, id, 0, "X", c.th) == o.spent / TotalCollateral(o)
    ensures var s' := Apply(s, FillNext(id, 0), c);
      At(s', id, NEW, e, o) && s'.batches.Keys == s.batches.Keys && s'.engagements.Keys == s.engagements.Keys
      && (forall j :: j in s.batches ==> s'.batches[j].cancelled == s.batches[j].cancelled)
  {
    hide FillIndexOrder;
    FillsNothing(e, o, c.th);
    assert [e][0 := e] == [e];
  }

  /** Nothing was spent yet of a hundred that count. */
  predicate Unspent(o: SolverOrder) {
    && o.side == Buy && o.status.Engaged? && o.timestamp == 0
    && o.spent == 0.0 && o.filled == 0.0 && o.lots == [] && TotalCollateral(o) == 100.0
  }

  function SpentFive(o: SolverOrder): SolverOrder {
    o.(engaged := o.engaged - 5.0, spent := 5.0, filled := 5.0, lots := [BuildAssetLot(NewLot(FIVE), "A", 5.0)])
  }

  /** The late lot is handed out while the order's collateral is carried over. */
  lemma FillsLate(e: Engagement, p: Position, o: SolverOrder, now: int, th: Thresholds)
    requires Low(th) && now == 0 && e == Part(0.0, e.collateral) && Unspent(o)
    requires p.quantity == 5.0 && p.openLots == [NewLot(FIVE)]
    ensures var f := FillIndexOrder(map[KEY := p], e, o, now, th);
      && f.positions == map[KEY := p.(openLots := [NewLot(FIVE).(remaining := 0.0)])]
      && f.engagement == e.(filled := 5.0) && f.order == SpentFive(o) && !f.mintable && f.error.None?
      && f.request.Some? && f.request.value.rate == 5.0 / 100.0
      && f.request.value.spent == 5.0 && f.request.value.quantity == 5.0
  {
    hide BasketRate, FilledAt, AllocateBasket, BuildAssetLot;
    BatchExamples.OnlyRate(p, e, "A", 5.0);
    var lot := NewLot(FIVE);
    BatchExamples.OnlyLot(e.basket, "A", p, lot, 5.0, th.zero);
    assert [] + [BuildAssetLot(lot, "A", 5.0)] == [BuildAssetLot(lot, "A", 5.0)];
  }

  // The run, step by step

  ghost predicate Reaches(steps: seq<Step>, s: State, c: Config) {
    RunFrom(NOTHING, steps, c) == s && AgreedFrom(NOTHING, steps, c, "X")
  }

  lemma {:induction false} Longer(s: State, steps: seq<Step>, step: Step, c: Config, key: string)
    ensures RunFrom(s, steps + [step], c) == Apply(RunFrom(s, steps, c), step, c)
    ensures AgreedFrom(s, steps + [step], c, key)
       <==> AgreedFrom(s, steps, c, key) && Agreed(RunFrom(s, steps, c), step, key)
    decreases |steps|
  {
    hide Apply, Agreed;
    if steps == [] {
      assert [] + [step] == [step] && [step][1..] == [];
    } else {
      assert (steps + [step])[1..] == steps[1..] + [step];
      Longer(Apply(s, steps[0], c), steps[1..], step, c, key);
    }
  }

  lemma Next(steps: seq<Step>, s: State, step: Step, c: Config) returns (steps': seq<Step>, s': State)
    requires Reaches(steps, s, c) && Agreed(s, step, "X")
    ensures steps' == steps + [step] && s' == Apply(s, step, c) && Reaches(steps', s', c)
  {
    hide Apply, Agreed;
    Longer(NOTHING, steps, step, c, "X");
    steps', s' := steps + [step], Apply(s, step, c);
  }

  lemma NoSteps(c: Config)
    ensures Reaches([], NOTHING, c)
  {
  }

  lemma OnlyIsGood()
    ensures GoodEngagement(BatchExamples.Only("X", "A", 100.0).orders)
  {
    BatchExamples.OnlyIsOk("X", "A", 100.0);
  }

  /** A batch of the order is registered, answered and sent. */
  lemma Sends(
      steps: seq<Step>, s: State, id: string, o: SolverOrder, confirmation: Confirmation, c: Config)
    returns (steps': seq<Step>, s': State)
    requires Reaches(steps, s, c) && s.orders == map["X" := o] && s.carryOvers == map[]
    requires id !in s.engagements && id !in s.batches && s.readyBatches == []
    requires confirmation.engaged + confirmation.remaining == o.remaining
    ensures Reaches(steps', s', c)
    ensures var o' := BatchManagerSpec.Engage(o, confirmation, 0);
      && At(s', id, NEW, Part(0.0, o'.engaged), o') && !s'.batches[id].cancelled && s'.readyBatches == []
      && s'.batches == s.batches[id := s'.batches[id]] && s'.engagements == s.engagements[id := s'.engagements[id]]
    ensures steps' == steps + [Register(id, BatchExamples.Only("X", "A", 100.0)),
                               Confirm(id, BatchExamples.Answer("X", confirmation), 0), TakeReady(1), Send(id, 0)]
  {
    hide Reaches, EngageOrders, SendBatch, GoodEngagement, BatchManagerSpec.Engage;
    OnlyIsGood();
    var e := BatchExamples.Only("X", "A", 100.0);
    var s1, s2, s3;
    steps', s1 := Next(steps, s, Register(id, e), c);
    BatchExamples.OnlyAnswered(s1, id, "X", "A", 100.0, confirmation, 0);
    steps', s2 := Next(steps', s1, Confirm(id, BatchExamples.Answer("X", confirmation), 0), c);
    assert [] + [id] == [id] && [id][1..] == [];
    steps', s3 := Next(steps', s2, TakeReady(1), c);
    BatchExamples.OnlySends(s3, id, "A", 0, c);
    steps', s' := Next(steps', s3, BatchRuns.Send(id, 0), c);
  }

  /** The order is engaged for half of what it has, in a batch that had its first fill. */
  lemma Starts(c: Config) returns (steps: seq<Step>, s: State)
    requires Low(c.th)
    ensures Reaches(steps, s, c) && At(s, "M", NEW, Part(0.0, 100.0), ENGAGED)
    ensures Alone(s) && s.readyBatches == [] && !s.batches["M"].cancelled
  {
    hide Reaches, At, Apply, Reports, Reported;
    steps, s := Arrives(c);
    steps, s := Sends(steps, s, "M", READY, Confirmation(100.0, 100.0), c);
    IsEngaged();
    FirstFill(s, "M", Part(0.0, 100.0), ENGAGED, c);
    FillKeepsReady(s, "M", c);
    steps, s := Next(steps, s, FillNext("M", 0), c);
  }

  lemma Arrives(c: Config) returns (steps: seq<Step>, s: State)
    ensures Reaches(steps, s, c) && s == NOTHING.(orders := map["X" := READY])
  {
    NoSteps(c);
    steps, s := Next([], NOTHING, Arrive("X", READY), c);
  }

  lemma IsEngaged()
    ensures BatchManagerSpec.Engage(READY, Confirmation(100.0, 100.0), 0) == ENGAGED
    ensures BatchManagerSpec.Engage(LATE, Confirmation(10.0, 90.0), 0) == AGAIN
    ensures TotalCollateral(ENGAGED) == 200.0 && TotalCollateral(AGAIN) == 205.0
  {
  }

  lemma IsLate(o: SolverOrder)
    requires o == CARRIED
    ensures Unspent(o) && SpentFive(o) == LATE
  {
  }

  lemma AtKeys(s: State, id: string, p: Position, e: Engagement, o: SolverOrder)
    requires At(s, id, p, e, o)
    ensures id in s.batches && id in s.engagements && "X" in s.orders && s.orders == map["X" := o]
    ensures s.carryOvers == map[] && CanFill(s, id, 0) == (e.order == "X")
  {
  }

  lemma FillKeepsReady(s: State, id: string, c: Config)
    ensures Apply(s, FillNext(id, 0), c).readyBatches == s.readyBatches
  {
    hide FillOf;
  }

  lemma Cancels(s: State, e: Engagement, o: SolverOrder, c: Config)
    requires At(s, "M", NEW, e, o) && Alone(s)
    ensures var s' := Apply(s, CancelOrder("M", KEY, 0.0, true), c);
      At(s', "M", CANCELLED, e, o) && Alone(s') && s'.readyBatches == s.readyBatches
  {
    assert map[KEY := NEW][KEY := CANCELLED] == map[KEY := CANCELLED];
  }

  /** Completing the batch sets the engaged collateral aside. */
  lemma Completes(s: State, e: Engagement, c: Config)
    requires At(s, "M", CANCELLED, e, ENGAGED) && Alone(s) && e.order == "X"
    ensures var s' := Apply(s, Finish("M", 0), c);
      At(s', "M", CANCELLED, e, CARRIED) && Alone(s') && s'.readyBatches == s.readyBatches
  {
    var due := DueMints(s, 0, c.mintWait);
    var promoted := Promote(s.orders, due);
    assert "X" !in due && promoted == s.orders;
    assert [e][1..] == [];
    assert Continued([], promoted) == [];
    assert Continued([e], promoted) == ["X"] + [] == ["X"];
    assert ["X"][1..] == [];
    assert CarryAll(promoted, ["X"]) == promoted["X" := Carry(promoted["X"])] == map["X" := CARRIED];
    assert Emptied(map[KEY := CANCELLED]) == map[KEY := CANCELLED];
    assert CarryOut(map[KEY := CANCELLED], map[]) == map[];
  }

  function WithFive(): Position { BatchShortage.Extended(CANCELLED, FIVE) }

  lemma FiveIn()
    ensures WithFive().quantity == 5.0 && WithFive().openLots == [NewLot(FIVE)]
  {
    assert [] + [NewLot(FIVE)] == [NewLot(FIVE)];
  }

  /** A lot is reported for the completed batch. */
  lemma Executes(s: State, e: Engagement, o: SolverOrder, c: Config)
    requires At(s, "M", CANCELLED, e, o) && Alone(s)
    ensures var s' := Apply(s, Execute("M", KEY, FIVE, 0), c);
      At(s', "M", WithFive(), e, o) && Alone(s') && s'.readyBatches == s.readyBatches
  {
    assert map[KEY := CANCELLED][KEY := WithFive()] == map[KEY := WithFive()];
  }

  lemma SpendsLate(s: State, p: Position, e: Engagement, o: SolverOrder, c: Config)
    requires At(s, "M", p, e, o) && Alone(s) && Low(c.th)
    requires p == WithFive() && e == Part(0.0, e.collateral) && Unspent(o)
    ensures Reports(s, "M", 0, "X", c.th) && Reported(s, "M", 0, "X", c.th) == 5.0 / 100.0
    ensures var s' := Apply(s, FillNext("M", 0), c);
      s'.orders == map["X" := SpentFive(o)] && s'.carryOvers == map[] && Alone(s') && s'.readyBatches == s.readyBatches
  {
    hide FillIndexOrder;
    FiveIn();
    FillsLate(e, p, o, 0, c.th);
  }

  /** The batch completes without a lot and the order's collateral is carried over; then a lot is reported. */
  lemma UpToFirst(c: Config) returns (steps: seq<Step>, s: State)
    requires Low(c.th)
    ensures Reaches(steps, s, c) && At(s, "M", WithFive(), Part(0.0, 100.0), CARRIED)
    ensures Alone(s) && s.readyBatches == []
  {
    hide Reaches, At, Low, WithFive, Alone, Apply;
    steps, s := Starts(c);
    AtKeys(s, "M", NEW, Part(0.0, 100.0), ENGAGED);
    Cancels(s, Part(0.0, 100.0), ENGAGED, c);
    steps, s := Next(steps, s, CancelOrder("M", KEY, 0.0, true), c);
    AtKeys(s, "M", CANCELLED, Part(0.0, 100.0), ENGAGED);
    Completes(s, Part(0.0, 100.0), c);
    steps, s := Next(steps, s, Finish("M", 0), c);
    Executes(s, Part(0.0, 100.0), CARRIED, c);
    steps, s := Next(steps, s, Execute("M", KEY, FIVE, 0), c);
  }

  function UpToSecond(): seq<Step> {
    [Register("N", BatchExamples.Only("X", "A", 100.0)),
     Confirm("N", BatchExamples.Answer("X", Confirmation(10.0, 90.0)), 0), TakeReady(1), Send("N", 0)]
  }

  /** The late lot is handed out. */
  lemma LateFill(first: seq<Step>, s: State, p: Position, e: Engagement, o: SolverOrder, c: Config)
    returns (steps: seq<Step>, s': State)
    requires Reaches(first, s, c) && Low(c.th) && At(s, "M", p, e, o)
    requires p == WithFive() && e == Part(0.0, e.collateral) && Unspent(o)
    requires Alone(s) && s.readyBatches == []
    ensures Reports(s, "M", 0, "X", c.th) && Reported(s, "M", 0, "X", c.th) == 5.0 / 100.0
    ensures steps == first + [FillNext("M", 0)] && Reaches(steps, s', c)
    ensures s'.orders == map["X" := SpentFive(o)] && s'.carryOvers == map[] && s'.readyBatches == []
    ensures "N" !in s'.batches && "N" !in s'.engagements
  {
    hide Reaches, At, Apply, Reports, Reported, Low, WithFive, Part;
    SpendsLate(s, p, e, o, c);
    steps, s' := Next(first, s, FillNext("M", 0), c);
  }

  /** The order is engaged again. */
  lemma NextBatch(steps: seq<Step>, s: State, c: Config) returns (steps': seq<Step>, s': State)
    requires Reaches(steps, s, c) && Low(c.th) && s.orders == map["X" := LATE] && s.carryOvers == map[]
    requires s.readyBatches == [] && "N" !in s.batches && "N" !in s.engagements
    ensures steps' == steps + UpToSecond() && Reaches(steps', s', c) && s'.orders == map["X" := AGAIN]
    ensures At(s', "N", NEW, Part(0.0, 110.0), AGAIN)
    ensures Reports(s', "N", 0, "X", c.th) && Reported(s', "N", 0, "X", c.th) == 5.0 / 205.0
  {
    hide Reaches, At, Apply, Reports, Reported, Low;
    IsEngaged();
    steps', s' := Sends(steps, s, "N", LATE, Confirmation(10.0, 90.0), c);
    AtKeys(s', "N", NEW, Part(0.0, 110.0), AGAIN);
    FirstFill(s', "N", Part(0.0, 110.0), AGAIN, c);
  }

  /** A late lot is handed out in a completed batch, while the order's engaged collateral is carried over: a twentieth
      is reported as spent. In the next batch it is less, with the same spent: what was carried counts again, and the
      answer brought back what the late fill took from it. */
  lemma LateFillReportFalls(c: Config) returns (first: seq<Step>, s: State, s': State)
    requires Low(c.th)
    ensures Reaches(first, s, c) && Reaches(first + [FillNext("M", 0)] + UpToSecond(), s', c)
    ensures Reports(s, "M", 0, "X", c.th) && Reports(s', "N", 0, "X", c.th)
    ensures s.orders == map["X" := CARRIED] && s'.orders == map["X" := AGAIN]
    ensures Worth(s'.orders["X"]) == Worth(s.orders["X"]) + 5.0
    ensures Reported(s, "M", 0, "X", c.th) == 5.0 / 100.0 && Reported(s', "N", 0, "X", c.th) == 5.0 / 205.0
  {
    hide Reaches, At, WithFive, Alone, Reports, Reported, Low, UpToSecond, SpentFive, Unspent;
    var steps, s1;
    first, s := UpToFirst(c);
    AtKeys(s, "M", WithFive(), Part(0.0, 100.0), CARRIED);
    IsLate(CARRIED);
    steps, s1 := LateFill(first, s, WithFive(), Part(0.0, 100.0), CARRIED, c);
    steps, s' := NextBatch(steps, s1, c);
  }
}
