/** A run of the batch manager's events in which lots are lost. */
module BatchLossRun {
  import opened Common
  import opened BatchLots
  import opened BatchFillSpec
  import opened BatchFillTheory
  import opened BatchManagerSpec
  import opened BatchRuns
  import opened BatchSafety
  import opened BatchExamples
  import BatchShortage
  import opened BatchLosses
  import opened ManagerSteps
  import opened ManagerEvents
  import opened Conservation = BatchConservation

  /** Every order of the batch is mentioned, as the order manager does unless it refuses the whole batch. */
  ghost predicate Mentions(s: State, event: Event) {
    event.AnswersArrive? && event.id in s.engagements ==>
      forall e :: e in s.engagements[event.id].orders ==> e.order in event.confirmations
  }

  ghost predicate AnsweredRun(events: seq<Event>, c: Config)
    decreases |events|
  {
    events == [] ||
    var before := events[..|events| - 1];
    AnsweredRun(before, c) && Mentions(RunEvents(before, c), events[|events| - 1])
  }

  ghost predicate Reaches(events: seq<Event>, s: State, c: Config) {
    ExpectedRun(events, c, false) && AnsweredRun(events, c) && RunEvents(events, c) == s
  }

  lemma NoEvents(c: Config)
    ensures Reaches([], NOTHING, c)
  {
  }

  lemma NextEvent(events: seq<Event>, s: State, event: Event, c: Config) returns (events': seq<Event>, s': State)
    requires Reaches(events, s, c) && Expected(s, event, c, false) && Mentions(s, event)
    ensures events' == events + [event] && s' == Handle(s, event, c) && Reaches(events', s', c)
    ensures AllSteps(events', c) == AllSteps(events, c) + StepsOf(s, event, c)
  {
    hide Handle, Expected, StepsOf, Mentions;
    events', s' := events + [event], Handle(s, event, c);
    assert events'[..|events'| - 1] == events;
  }

  /** With half a lot. */
  function Partly(q: real, w: real): SolverOrder
    requires 0.0 < q
  {
    HalfGiven(q, w, PartlyMintable)
  }

  function Part(order: string, symbol: string, q: real, filled: real, collateral: real): Engagement {
    OnlyPart(order, symbol, q).(filled := filled, collateral := collateral)
  }

  /** The batch has one position and one order. */
  ghost predicate Holding(s: State, id: string, k: AssetKey, p: Position, e: Engagement) {
    && id in s.batches && s.batches[id].positions == map[k := p] && s.batches[id].volleySize == 20.0
    && s.batches[id].timestamp == 0 && !s.batches[id].cancelled
    && id in s.engagements && s.engagements[id].orders == [e]
  }

  ghost predicate Orders(s: State, x: SolverOrder, z: SolverOrder) {
    s.orders == map["X" := x, "Z" := z]
  }

  predicate Suits(c: Config, q: real) {
    && 0.0 < c.th.zero <= q && 0.0 < c.th.fill && c.th.mint < c.th.fill
    && 0 < c.mintWait && 1 <= c.maxBatchSize
  }

  // A batch is engaged, answered and sent

  lemma FillStays(s: State, id: string, th: Thresholds)
    requires CanFill(s, id, 0) && |s.engagements[id].orders| == 1
    requires var e := s.engagements[id].orders[0];
      FillOf(s, id, 0, th) == Filled(s.batches[id].positions, e, s.orders[e.order], false, None, None)
    ensures FillFrom(s, id, 0, th) == (s, Done)
  {
    var es := s.engagements[id];
    var key := es.orders[0].order;
    assert es.orders[0 := es.orders[0]] == es.orders;
    assert s.outbox + [] == s.outbox;
    assert s.orders[key := s.orders[key]] == s.orders;
    assert s.batches[id := s.batches[id]] == s.batches;
    assert s.engagements[id := es] == s.engagements;
    assert AfterFill(s, id, 0, FillOf(s, id, 0, th)) == s;
  }

  /** Nothing is executed yet, and nothing is below the threshold. */
  lemma FirstFillStays(s: State, id: string, order: string, symbol: string, q: real, w: real, th: Thresholds)
    requires Holding(s, id, AssetKey(symbol, Buy), NEW, Part(order, symbol, q, 0.0, w)) && 0.0 < th.zero && 0.0 < q
    requires order in s.orders && s.orders[order] == AllIn(w)
    ensures FillFrom(s, id, 0, th) == (s, Done)
  {
    hide BasketRate, FilledAt;
    var e := Part(order, symbol, q, 0.0, w);
    OnlyRate(NEW, e, symbol, 0.0);
    assert FillOf(s, id, 0, th) == Filled(s.batches[id].positions, e, s.orders[order], false, None, None);
    FillStays(s, id, th);
  }

  ghost predicate Idle(s: State) {
    s.readyBatches == [] && s.carryOvers == map[] && s.readyMints == {}
        && forall id :: id in s.batches ==> !s.batches[id].cancelled
  }

  lemma IsExpected(
      s: State, id: string, order: string, symbol: string, q: real, confirmation: Confirmation, c: Config)
    requires id !in s.engagements && id !in s.batches && id !in s.readyBatches
    requires order in s.orders && s.orders[order].side == Buy && 0.0 < q
    ensures var first := EngagementArrives(id, Only(order, symbol, q));
      var second := AnswersArrive(id, BatchExamples.Answer(order, confirmation), 0); var s1 := Handle(s, first, c);
      && Expected(s, first, c, false) && Mentions(s, first)
      && Expected(s1, second, c, false) && Mentions(s1, second)
  {
    hide FairShares, EngagementOk;
    OnlyIsOk(order, symbol, q);
  }

  lemma Answers(
      events: seq<Event>, s: State, id: string, order: string, symbol: string, q: real, confirmation: Confirmation,
      c: Config)
    returns (events': seq<Event>, s': State)
    requires Reaches(events, s, c) && id !in s.engagements && id !in s.batches && id !in s.readyBatches
    requires order in s.orders && s.orders[order].side == Buy && 0.0 < q
    ensures Reaches(events', s', c)
    ensures var o := BatchManagerSpec.Engage(s.orders[order], confirmation, 0);
      var es := Only(order, symbol, q).(orders := [Part(order, symbol, q, 0.0, o.engaged)]);
      s' == s.(orders := s.orders[order := o], engagements := s.engagements[id := es],
               readyBatches := s.readyBatches + [id])
  {
    hide Reaches, EngageOrders, BatchManagerSpec.Engage, Expected, Mentions;
    IsExpected(s, id, order, symbol, q, confirmation, c);
    var s1;
    events', s1 := NextEvent(events, s, EngagementArrives(id, Only(order, symbol, q)), c);
    OnlyAnswered(s1, id, order, symbol, q, confirmation, 0);
    events', s' := NextEvent(events', s1, AnswersArrive(id, BatchExamples.Answer(order, confirmation), 0), c);
  }

  /** The round sends the one batch that is ready. */
  lemma RoundSends(s: State, id: string, order: string, symbol: string, q: real, w: real, c: Config)
    requires s.readyBatches == [id] && s.carryOvers == map[] && id !in s.batches && 1 <= c.maxBatchSize
    requires forall j :: j in s.batches ==> !s.batches[j].cancelled
    requires id in s.engagements && 0.0 < c.th.zero && 0.0 < q
    requires s.engagements[id] == Only(order, symbol, q).(orders := [Part(order, symbol, q, 0.0, w)])
    requires order in s.orders && s.orders[order] == AllIn(w)
    ensures var s' := ProcessBatches(s, 0, c).0;
      && Holding(s', id, AssetKey(symbol, Buy), NEW, Part(order, symbol, q, 0.0, w))
      && s' == s.(batches := s.batches[id := s'.batches[id]], readyBatches := [], totalVolley := s'.totalVolley,
                  outbox := s'.outbox)
  {
    hide SendBatch, ProcessBatches, FillFrom, AllIn, OnlyPart;
    var taken := s.(readyBatches := []);
    OnlySends(taken, id, symbol, 0, c);
    FirstFillStays(SendBatch(taken, id, 0, c).0, id, order, symbol, q, w, c.th);
    QuietRound(s, id, 0, c);
  }

  lemma SendsOne(
      events: seq<Event>, s: State, id: string, order: string, symbol: string, q: real, w: real, c: Config)
    returns (events': seq<Event>, s': State)
    requires Reaches(events, s, c) && Idle(s) && id !in s.engagements && id !in s.batches && 1 <= c.maxBatchSize
    requires order in s.orders && s.orders[order] == Paying(w) && 0.0 < c.th.zero && 0.0 < q
    ensures Reaches(events', s', c) && Idle(s') && s'.orders == s.orders[order := AllIn(w)]
    ensures Holding(s', id, AssetKey(symbol, Buy), NEW, Part(order, symbol, q, 0.0, w))
    ensures s'.batches == s.batches[id := s'.batches[id]]
    ensures s'.engagements == s.engagements[id := s'.engagements[id]]
  {
    hide Reaches, ProcessBatches, AllIn, Part, Only;
    var s1;
    AllIsEngaged(w);
    events', s1 := Answers(events, s, id, order, symbol, q, Confirmation(w, 0.0), c);
    assert [] + [id] == [id];
    RoundSends(s1, id, order, symbol, q, w, c);
    events', s' := NextEvent(events', s1, Round(0), c);
  }

  lemma AllIsEngaged(w: real)
    ensures BatchManagerSpec.Engage(Paying(w), Confirmation(w, 0.0), 0) == AllIn(w)
    ensures AllIn(w).engaged == w && Paying(w).side == Buy
  {
  }

  // The order is partly mintable, and goes on

  /** Half of the lot brings the order to the threshold from which it would be fully mintable. */
  lemma LotArrivesHalf(s: State, z: SolverOrder, q: real, w: real, c: Config)
    requires Holding(s, "M", A, NEW, Part("X", "A", q, 0.0, w)) && Orders(s, AllIn(w), z)
    requires Suits(c, q) && 0.0 < w && q / w == c.th.fill
    ensures UpdateBatch(s.batches["M"], A, Twice(q), 0).ok
    ensures var s' := HandleNewLot(s, "M", A, Twice(q), 0, c).0;
      && Holding(s', "M", A, WithHalf(q), Part("X", "A", q, q, w)) && Orders(s', Partly(q, w), z)
      && s'.readyMints == s.readyMints + {"X"} && s'.carryOvers == s.carryOvers && s'.readyBatches == s.readyBatches
      && SameElse(s, s', "M")
  {
    hide FillIndexOrder, WithHalf, TwoLots, HalfGiven, UpdateBatch, AllIn, Paying;
    var s1 := s.(batches := s.batches["M" := UpdateBatch(s.batches["M"], A, Twice(q), 0).batch]);
    Executes(s, "M", q, c);
    FillsHalf("X", q, w, c.th);
    var f := FillOf(s1, "M", 0, c.th);
    var e := Part("X", "A", q, 0.0, w);
    assert [e][0 := f.engagement] == [f.engagement];
    var s2 := AfterFill(s1, "M", 0, f);
    assert FillFrom(s1, "M", 0, c.th) == FillFrom(s2, "M", 1, c.th) == (s2, Done);
    assert s2.orders == map["X" := AllIn(w), "Z" := z]["X" := f.order];
  }

  /** Batches and engagements but for one. */
  ghost predicate SameElse(s: State, s': State, id: string) {
    && s'.batches.Keys == s.batches.Keys && s'.engagements.Keys == s.engagements.Keys
    && (forall j :: j in s.batches && j != id ==> s'.batches[j] == s.batches[j])
    && (forall j :: j in s.engagements && j != id ==> s'.engagements[j] == s.engagements[j])
  }

  function Carried(q: real): CarryOvers { map[A := CarryOver(q, [Half(q)])] }

  lemma HalfIsCarried(p: Position, q: real)
    requires p == WithHalf(q).(cancelled := true, quantityCancelled := 0.0)
    ensures CarryOut(map[A := p], map[]) == Carried(q)
  {
    SumByOne(Half(q), RemainingOf);
    assert CarriedFrom(p) == CarryOver(q, [Half(q)]);
  }

  lemma NoneIsDue(s: State, q: real, w: real, z: SolverOrder, c: Config)
    requires 0.0 < q && Orders(s, Partly(q, w), z) && s.readyMints == {"X"} && 0 < c.mintWait
    ensures DueMints(s, 0, c.mintWait) == {} && Promote(s.orders, {}) == s.orders && Continues(Partly(q, w))
  {
  }

  lemma OneGoesOn(e: Engagement, orders: map<string, SolverOrder>)
    requires e.order in orders && Continues(orders[e.order])
    ensures CarryAll(orders, Continued([e], orders)) == orders[e.order := Carry(orders[e.order])]
  {
    assert [e][1..] == [] && Continued([], orders) == [];
    assert Continued([e], orders) == [e.order] + [] == [e.order];
    assert [e.order][1..] == [];
  }

  /** The batch completes before the order's time to wait is over: the order goes on, with its collateral. */
  lemma CompletesM(s: State, z: SolverOrder, q: real, w: real, c: Config)
    requires 0.0 < q && Holding(s, "M", A, WithHalf(q), Part("X", "A", q, q, w)) && Orders(s, Partly(q, w), z)
    requires s.readyMints == {"X"} && s.carryOvers == map[] && 0 < c.mintWait
    ensures var s' := HandleCancelOrder(s, "M", A, 0.0, true, 0, c).0;
      && Orders(s', Carry(Partly(q, w)), z) && s'.readyMints == {"X"} && s'.carryOvers == Carried(q)
      && s'.readyBatches == s.readyBatches && SameElse(s, s', "M") && s'.batches["M"].cancelled
  {
    hide CarryOut, CarryAll, Continued, Emptied, WithHalf, HalfGiven, Half;
    var p := WithHalf(q).(cancelled := true, quantityCancelled := 0.0);
    var b := CancelAsset(s.batches["M"], A, 0.0, true);
    assert b.positions == map[A := p] && b.cancelled;
    HalfIsCarried(p, q);
    NoneIsDue(s.(batches := s.batches["M" := b]), q, w, z, c);
    OneGoesOn(Part("X", "A", q, q, w), s.orders);
    assert s.orders["X" := Carry(Partly(q, w))] == map["X" := Carry(Partly(q, w)), "Z" := z];
  }

  /** Another batch completes once the order's time to wait is over: the order is published to be minted. */
  lemma CompletesK(s: State, q: real, w: real, c: Config)
    requires 0.0 < q && Holding(s, "K", B, NEW, Part("Z", "B", q, 0.0, w)) && Orders(s, Partly(q, w), AllIn(w))
    requires s.readyMints == {"X"} && s.carryOvers == Carried(q)
    ensures var s' := HandleCancelOrder(s, "K", B, 0.0, true, c.mintWait, c).0;
      && Orders(s', Partly(q, w).(status := FullyMintable), Carry(AllIn(w))) && s'.carryOvers == Carried(q)
      && BatchMintable({"X"}) in s'.outbox
      && s'.readyBatches == s.readyBatches && SameElse(s, s', "K") && s'.batches["K"].cancelled
  {
    hide CarryAll, Continued, Emptied, HalfGiven, Half;
    var p := NEW.(cancelled := true, quantityCancelled := 0.0);
    var b := CancelAsset(s.batches["K"], B, 0.0, true);
    assert b.positions == map[B := p] && b.cancelled;
    NothingMoreCarried(p, q);
    var s1 := s.(batches := s.batches["K" := b]);
    OnlyXIsDue(s1, q, w, c);
    var promoted := Promote(s.orders, {"X"});
    OneGoesOn(Part("Z", "B", q, 0.0, w), promoted);
  }

  lemma NothingMoreCarried(p: Position, q: real)
    requires p.openLots == []
    ensures CarryOut(map[B := p], Carried(q)) == Carried(q)
  {
  }

  lemma OnlyXIsDue(s: State, q: real, w: real, c: Config)
    requires 0.0 < q && Orders(s, Partly(q, w), AllIn(w)) && s.readyMints == {"X"}
    ensures DueMints(s, c.mintWait, c.mintWait) == {"X"}
    ensures Promote(s.orders, {"X"}) == map["X" := Partly(q, w).(status := FullyMintable), "Z" := AllIn(w)]
  {
  }

  // The run

  lemma {:induction false} LegalIsPlain(steps: seq<Step>, c: Config)
    requires LegalRun(steps, c)
    ensures forall step :: step in steps ==> BatchShortage.Plain(step)
    decreases |steps|
  {
    hide Run, Finished;
    if steps != [] {
      var n := |steps| - 1;
      LegalIsPlain(steps[..n], c);
      assert steps == steps[..n] + [steps[n]];
    }
  }

  lemma RunsOfEventsAreStocked(events: seq<Event>, s: State, c: Config)
    requires Reaches(events, s, c) && 0.0 <= c.th.zero
    ensures BatchShortage.Stocked(s) && Run(AllSteps(events, c), c) == s
    ensures forall step :: step in AllSteps(events, c) ==> BatchShortage.Plain(step)
  {
    hide ExpectedRun, RunEvents, AllSteps, Run, LegalRun, ProperRun, BatchShortage.Stocked, BatchShortage.Plain,
      AnsweredRun;
    EventsAreProper(events, c, false);
    ProperIsLegal(AllSteps(events, c), c, false);
    LegalIsPlain(AllSteps(events, c), c);
    BatchShortage.RunsAreStocked(AllSteps(events, c), c);
  }

  lemma LosesMore(steps: seq<Step>, step: Step, c: Config, k: AssetKey)
    ensures Run(steps + [step], c) == Apply(Run(steps, c), step, c)
    ensures Flows(steps + [step], c, k, QUANTITY).lost ==
      Flows(steps, c, k, QUANTITY).lost + FlowOf(Run(steps, c), step, k, QUANTITY).lost
  {
    hide Apply, FlowOf;
    assert (steps + [step])[..|steps|] == steps;
  }

  /** The steps of an idle round lose what the removed batches hold. */
  lemma IdleRoundLoses(steps: seq<Step>, s: State, c: Config, id: string, k: AssetKey)
    requires Run(steps, c) == s && BatchShortage.Stocked(s) && id in s.batches && s.batches[id].cancelled
    requires 0.0 <= Flows(steps, c, k, QUANTITY).lost
    ensures OpenIn(s.batches, k, QUANTITY)(id) <= Flows(steps + [TakeReady(0), Clean], c, k, QUANTITY).lost
  {
    hide BatchShortage.Stocked, OpenIn, Apply, Run, Flows;
    LosesMore(steps, TakeReady(0), c, k);
    TakesNone(s, c);
    LosesMore(steps + [TakeReady(0)], Clean, c, k);
    assert steps + [TakeReady(0)] + [Clean] == steps + [TakeReady(0), Clean];
    BatchesNonNegative(s, k);
    SumOverAtLeast(CancelledIn(s), OpenIn(s.batches, k, QUANTITY), id);
  }

  lemma TakesNone(s: State, c: Config)
    ensures Apply(s, TakeReady(0), c) == s
  {
    assert s.readyBatches[0..] == s.readyBatches;
  }

  /** Two batches are sent, each with its own order. */
  lemma BothSent(c: Config, q: real, w: real) returns (events: seq<Event>, s: State)
    requires Suits(c, q)
    ensures Reaches(events, s, c) && Idle(s) && Orders(s, AllIn(w), AllIn(w))
    ensures s.batches.Keys == {"K", "M"} == s.engagements.Keys
    ensures Holding(s, "K", B, NEW, Part("Z", "B", q, 0.0, w)) && Holding(s, "M", A, NEW, Part("X", "A", q, 0.0, w))
  {
    hide Reaches, Paying, AllIn, Holding, Part;
    events, s := BothArrive(c, w);
    events, s := SendsOne(events, s, "K", "Z", "B", q, w, c);
    var s1 := s;
    InBatch(s1, "K", B, NEW, Part("Z", "B", q, 0.0, w));
    events, s := SendsOne(events, s1, "M", "X", "A", q, w, c);
    InBatch(s, "M", A, NEW, Part("X", "A", q, 0.0, w));
    HoldingMore(s1, s, "K", B, NEW, Part("Z", "B", q, 0.0, w));
  }

  lemma BothArrive(c: Config, w: real) returns (events: seq<Event>, s: State)
    ensures Reaches(events, s, c) && s == NOTHING.(orders := map["X" := Paying(w), "Z" := Paying(w)])
  {
    NoEvents(c);
    events, s := NextEvent([], NOTHING, OrderArrives("X", Paying(w)), c);
    events, s := NextEvent(events, s, OrderArrives("Z", Paying(w)), c);
  }

  ghost predicate KWaits(s: State, q: real, w: real) {
    Holding(s, "K", B, NEW, Part("Z", "B", q, 0.0, w))
  }

  lemma HalfFilled(c: Config, q: real, w: real) returns (events: seq<Event>, s: State)
    requires Suits(c, q) && 0.0 < w && q / w == c.th.fill
    ensures Reaches(events, s, c) && Orders(s, Partly(q, w), AllIn(w)) && s.readyMints == {"X"}
    ensures s.carryOvers == map[] && s.readyBatches == [] && s.batches.Keys == {"K", "M"} == s.engagements.Keys
    ensures KWaits(s, q, w) && Holding(s, "M", A, WithHalf(q), Part("X", "A", q, q, w))
  {
    hide Reaches, HandleNewLot, UpdateBatch, Holding, WithHalf, Partly, AllIn, Orders;
    var s0;
    events, s0 := BothSent(c, q, w);
    LotArrivesHalf(s0, AllIn(w), q, w, c);
    InBatch(s0, "M", A, NEW, Part("X", "A", q, 0.0, w));
    events, s := NextEvent(events, s0, LotArrives("M", A, Twice(q), 0), c);
    StillHolding(s0, s, "M", "K", B, NEW, Part("Z", "B", q, 0.0, w));
  }

  lemma MCompleted(c: Config, q: real, w: real) returns (events: seq<Event>, s: State)
    requires Suits(c, q) && 0.0 < w && q / w == c.th.fill
    ensures Reaches(events, s, c) && Orders(s, Carry(Partly(q, w)), AllIn(w)) && s.readyMints == {"X"}
    ensures s.carryOvers == Carried(q) && s.readyBatches == [] && s.batches.Keys == {"K", "M"} == s.engagements.Keys
    ensures KWaits(s, q, w) && s.batches["M"].cancelled
  {
    hide Reaches, HandleCancelOrder, Holding, WithHalf, Partly, AllIn, Orders;
    var s0;
    events, s0 := HalfFilled(c, q, w);
    InBatch(s0, "M", A, WithHalf(q), Part("X", "A", q, q, w));
    CompletesM(s0, AllIn(w), q, w, c);
    events, s := NextEvent(events, s0, CancelArrives("M", A, 0.0, true, 0), c);
    StillHolding(s0, s, "M", "K", B, NEW, Part("Z", "B", q, 0.0, w));
  }

  /** The order gets half a lot and goes on into a third batch, with the other half carried over for it. */
  lemma GoesOnPartly(c: Config, q: real, w: real) returns (events: seq<Event>, s: State)
    requires Suits(c, q) && 0.0 < w && q / w == c.th.fill
    ensures Reaches(events, s, c) && Orders(s, Partly(q, w), AllIn(w)) && s.readyMints == {"X"}
    ensures s.carryOvers == Carried(q) && s.readyBatches == ["N"] && s.batches.Keys == {"K", "M"}
    ensures KWaits(s, q, w) && s.batches["M"].cancelled
    ensures "N" in s.engagements
    ensures s.engagements["N"] == Only("X", "A", q).(orders := [Part("X", "A", q, 0.0, w - q)])
  {
    hide Reaches, Holding, AllIn;
    var s0;
    events, s0 := MCompleted(c, q, w);
    TakenBack(q, w);
    events, s := Answers(events, s0, "N", "X", "A", q, Confirmation(0.0, 0.0), c);
    assert [] + ["N"] == ["N"];
    InBatch(s0, "K", B, NEW, Part("Z", "B", q, 0.0, w));
    HoldingMore(s0, s, "K", B, NEW, Part("Z", "B", q, 0.0, w));
  }

  lemma TakenBack(q: real, w: real)
    requires 0.0 < q
    ensures BatchManagerSpec.Engage(Carry(Partly(q, w)), Confirmation(0.0, 0.0), 0) == Partly(q, w)
    ensures Partly(q, w).engaged == w - q && Carry(Partly(q, w)).side == Buy
  {
  }

  lemma InBatch(s: State, id: string, k: AssetKey, p: Position, e: Engagement)
    requires Holding(s, id, k, p, e)
    ensures id in s.batches && !s.batches[id].cancelled && id in s.engagements
  {
  }

  lemma StillHolding(s: State, s': State, other: string, id: string, k: AssetKey, p: Position, e: Engagement)
    requires Holding(s, id, k, p, e) && id != other
    requires SameElse(s, s', other)
    ensures Holding(s', id, k, p, e)
  {
  }

  lemma HoldingMore(s: State, s': State, id: string, k: AssetKey, p: Position, e: Engagement)
    requires Holding(s, id, k, p, e) && id in s'.batches && s'.batches[id] == s.batches[id]
    requires id in s'.engagements && s'.engagements[id] == s.engagements[id]
    ensures Holding(s', id, k, p, e)
  {
  }

  /** The order is published when another batch completes. */
  lemma KCompleted(c: Config, q: real, w: real) returns (events: seq<Event>, s: State)
    requires Suits(c, q) && 0.0 < w && q / w == c.th.fill
    ensures Reaches(events, s, c) && Orders(s, Partly(q, w).(status := FullyMintable), Carry(AllIn(w)))
    ensures BatchMintable({"X"}) in s.outbox
    ensures s.carryOvers == Carried(q) && s.readyBatches == ["N"] && s.batches.Keys == {"K", "M"}
    ensures s.batches["K"].cancelled && s.batches["M"].cancelled && "N" in s.engagements
    ensures s.engagements["N"] == Only("X", "A", q).(orders := [Part("X", "A", q, 0.0, w - q)])
  {
    hide Reaches, HandleCancelOrder, Holding, Partly, AllIn, Orders;
    var s0;
    events, s0 := GoesOnPartly(c, q, w);
    InBatch(s0, "K", B, NEW, Part("Z", "B", q, 0.0, w));
    CompletesK(s0, q, w, c);
    events, s := NextEvent(events, s0, CancelArrives("K", B, 0.0, true, c.mintWait), c);
  }

  lemma ReadyToFail(s: State, q: real, w: real, c: Config)
    requires "X" in s.orders && s.orders["X"].status.Minted? && 1 <= c.maxBatchSize
    requires s.readyBatches == ["N"] && "N" !in s.batches && "N" in s.engagements
    requires s.engagements["N"] == Only("X", "A", q).(orders := [Part("X", "A", q, 0.0, w - q)])
    ensures WillFail(s, "N", c) && NewPositions(s.engagements["N"]).Keys == {A}
  {
    hide NewPositions;
    OnlyPrices(s.engagements["N"], "A");
  }

  /** It is minted before its own batch is sent. */
  lemma IsMinted(c: Config, q: real, w: real) returns (events: seq<Event>, s: State)
    requires Suits(c, q) && 0.0 < w && q / w == c.th.fill
    ensures Reaches(events, s, c) && WillFail(s, "N", c) && s.carryOvers == Carried(q)
    ensures NewPositions(s.engagements["N"]).Keys == {A}
    ensures s.batches.Keys == {"K", "M"} && s.batches["K"].cancelled && s.batches["M"].cancelled
  {
    hide Reaches, Partly, AllIn, NewPositions, WillFail, Carried, Only, Part, Carry, ProcessBatches, FairShares;
    var s0;
    events, s0 := KCompleted(c, q, w);
    events, s := NextEvent(events, s0, OrderChanges("X", s0.orders["X"].(status := Minted)), c);
    ReadyToFail(s, q, w, c);
  }

  lemma HalfWeighs(q: real)
    ensures CarriedAt(Carried(q), A, QUANTITY) == q
  {
    SumByOne(Half(q), LotWeight(QUANTITY));
  }

  /** A partly mintable order goes on into another batch, with half a lot carried over for it. The completion of a third
      batch publishes it, and it is minted before its own batch is sent. Then that batch's first fill fails, and the
      round after that removes it: what it carried in was acquired and is nowhere. */
  lemma LotsAreLost(c: Config, q: real) returns (events: seq<Event>, s: State)
    requires Suits(c, q)
    ensures ExpectedRun(events, c, false) && AnsweredRun(events, c) && s == RunEvents(events, c)
    ensures q <= Flows(AllSteps(events, c), c, A, QUANTITY).lost
    ensures A !in s.carryOvers && s.batches == map[]
  {
    hide ProcessBatches, Flows, AllSteps, BatchShortage.Stocked, WillFail, BatchShortage.Plain, ProcessSteps, OpenIn,
      CarriedAt, NewPositions, Run, ExpectedRun, AnsweredRun, RunEvents;
    var s0, s1;
    HalfIsShare(q, c.th.fill);
    events, s0 := IsMinted(c, q, q / c.th.fill);
    RunsOfEventsAreStocked(events, s0, c);
    FailedBatchIsLost(s0, "N", 0, 0, c, A, QUANTITY);
    HalfWeighs(q);
    events, s1 := NextEvent(events, s0, Round(0), c);
    RunsOfEventsAreStocked(events, s1, c);
    LossesAddUp(AllSteps(events, c), c, A);
    SecondRound(s0, c);
    IdleRoundLoses(AllSteps(events, c), s1, c, "N", A);
    IdleRound(s1, 0, c);
    events, s := NextEvent(events, s1, Round(0), c);
  }

  lemma SecondRound(s: State, c: Config)
    requires WillFail(s, "N", c) && s.batches.Keys == {"K", "M"} && s.batches["K"].cancelled && s.batches["M"].cancelled
    requires ProcessBatches(s, 0, c).0.batches.Keys >= {"N"} && ProcessBatches(s, 0, c).0.batches["N"].cancelled
    ensures var s1 := ProcessBatches(s, 0, c).0;
      s1.readyBatches == [] && Cleanup(s1).batches == map[]
  {
    hide ProcessBatches, NewBatch, NewPositions, ToSend;
    FailingRound(s, "N", 0, c);
    var s1 := ProcessBatches(s, 0, c).0;
    assert forall id :: id in s1.batches ==> id == "K" || id == "M" || id == "N";
  }
}
