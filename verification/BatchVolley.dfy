/** The volley is the value of the orders of the batches that are not completed yet. */
module BatchVolley {
  import opened Common
  import opened BatchLots
  import opened BatchFillSpec
  import opened BatchManagerSpec
  import opened BatchRuns

  // What no step but an execution changes in a batch

  predicate SameFigures(p: Position, p': Position) {
    p'.orderQuantity == p.orderQuantity && p'.volleySize == p.volleySize
  }

  ghost predicate SamePositions(positions: Positions, positions': Positions) {
    && positions'.Keys == positions.Keys
    && forall k :: k in positions ==> SameFigures(positions[k], positions'[k])
  }

  ghost predicate SameVolley(b: Batch, b': Batch) {
    SamePositions(b.positions, b'.positions) && b'.volleySize == b.volleySize
  }

  ghost predicate SameProgress(b: Batch, b': Batch) {
    SameVolley(b, b') && b'.filledVolley == b.filledVolley && b'.filledFraction == b.filledFraction
  }

  lemma {:induction false} BasketKeepsFigures(
      basket: seq<BasketAsset>, side: Side, positions: Positions, delta: real, t: real)
    ensures SamePositions(positions, AllocateBasket(basket, side, positions, delta, t).positions)
  {
    if basket != [] {
      var key := AssetKey(basket[0].symbol, side);
      if key in positions {
        var p := positions[key];
        var a := Allocate(p.openLots, p.closedLots, key.symbol, Asked(basket[0], delta), t);
        if a.ok && a.left <= t {
          var positions' := positions[key := p.(openLots := a.open, closedLots := a.closed)];
          BasketKeepsFigures(basket[1..], side, positions', delta, t);
        }
      }
    }
  }

  lemma FillKeepsFigures(positions: Positions, e: Engagement, o: SolverOrder, now: int, th: Thresholds)
    ensures SamePositions(positions, FillIndexOrder(positions, e, o, now, th).positions)
  {
    hide BasketRate, AllocateBasket, FilledAt;
    var rate := BasketRate(e.basket, o.side, positions, e);
    if rate.Rate? {
      BasketKeepsFigures(e.basket, o.side, positions, FilledAt(e, rate.r) - e.filled, th.zero);
    }
  }

  lemma UpdateKeepsVolley(b: Batch, k: AssetKey, x: Execution, now: int)
    ensures SameVolley(b, UpdateBatch(b, k, x, now).batch)
  {
  }

  /** Steps that neither send nor execute leave a batch's progress as it was; an execution elsewhere does too. */
  lemma StepKeepsProgress(s: State, step: Step, c: Config, id: string)
    requires id in s.batches && id in Apply(s, step, c).batches
    requires !(step.Send? && step.id == id) && !(step.Execute? && step.id == id)
    ensures SameProgress(s.batches[id], Apply(s, step, c).batches[id])
  {
    hide FillIndexOrder, UpdateBatch, LeftBehind, DueMints, Promote, Continued, CarryAll, CarryOut, NewBatch;
    match step
    case Confirm(j, confirmations, now) =>
      if j in s.engagements { AnswersOnly(s, j, 0, confirmations, now); }
    case FillNext(j, i) =>
      if CanFill(s, j, i) {
        var e := s.engagements[j].orders[i];
        FillKeepsFigures(s.batches[j].positions, e, s.orders[e.order], s.batches[j].timestamp, c.th);
      }
    case _ =>
  }

  lemma StepKeepsVolley(s: State, step: Step, c: Config, id: string)
    requires id in s.batches && id in Apply(s, step, c).batches && !(step.Send? && step.id == id)
    ensures SameVolley(s.batches[id], Apply(s, step, c).batches[id])
  {
    if step.Execute? && step.id == id {
      UpdateKeepsVolley(s.batches[id], step.k, step.x, step.now);
    } else {
      StepKeepsProgress(s, step, c, id);
    }
  }

  // The total volley

  function Volleys(batches: map<string, Batch>): string -> real {
    (id: string) => if id in batches then batches[id].volleySize else 0.0
  }

  function LiveBatches(s: State, finished: set<string>): set<string> {
    set id | id in s.batches && id !in finished
  }

  /** Batches are sent once and completed once, and only completed batches are removed. */
  predicate Orderly(s: State, finished: set<string>, step: Step) {
    match step
    case Send(id, _) => id !in s.batches
    case Finish(id, _) => id !in finished || id !in s.batches
    case Clean => forall id :: id in s.batches && s.batches[id].cancelled ==> id in finished
    case _ => true
  }

  ghost predicate OrderlyRun(steps: seq<Step>, c: Config)
    decreases |steps|
  {
    steps == [] ||
    var before := steps[..|steps| - 1];
    OrderlyRun(before, c) && Orderly(Run(before, c), Finished(before), steps[|steps| - 1])
  }

  ghost predicate VolleyIsLive(s: State, finished: set<string>) {
    && s.batches.Keys <= s.engagements.Keys
    && s.totalVolley == SumOver(LiveBatches(s, finished), Volleys(s.batches))
  }

  lemma SendCounts(s: State, finished: set<string>, id: string, now: int, c: Config)
    requires VolleyIsLive(s, finished) && id !in s.batches
    ensures VolleyIsLive(SendBatch(s, id, now, c).0, finished - {id})
  {
    hide NewBatch, NewPositions, ToSend;
    var s' := SendBatch(s, id, now, c).0;
    var live := LiveBatches(s, finished);
    if id in s'.batches {
      assert LiveBatches(s', finished - {id}) == live + {id};
      SumOverAdd(live, Volleys(s'.batches), id);
      SumOverSame(live, Volleys(s.batches), Volleys(s'.batches));
    } else {
      assert LiveBatches(s', finished - {id}) == live;
    }
  }

  lemma FinishCounts(s: State, finished: set<string>, id: string, now: int, c: Config)
    requires VolleyIsLive(s, finished) && id in s.batches && id !in finished
    ensures VolleyIsLive(Complete(s, id, now, c).0, finished + {id})
  {
    hide Emptied, CarryOut, DueMints, Promote, Continued, CarryAll;
    var s' := Complete(s, id, now, c).0;
    var live := LiveBatches(s, finished);
    assert LiveBatches(s', finished + {id}) == live - {id};
    SumOverTake(live, Volleys(s.batches), id);
    SumOverSame(live - {id}, Volleys(s.batches), Volleys(s'.batches));
  }

  lemma OtherStepKeepsTotal(s: State, step: Step, c: Config)
    requires !step.Send? && !step.Finish? && s.batches.Keys <= s.engagements.Keys
    ensures var s' := Apply(s, step, c);
      && s'.totalVolley == s.totalVolley && s'.batches.Keys <= s'.engagements.Keys
      && var gone := set id | id in s.batches && s.batches[id].cancelled;
         s'.batches.Keys == if step.Clean? then s.batches.Keys - gone else s.batches.Keys
  {
    hide FillOf, UpdateBatch, CancelAsset, EngageFrom;
    if step.Confirm? && step.id in s.engagements {
      AnswersOnly(s, step.id, 0, step.confirmations, step.now);
    }
  }

  lemma OtherStepCounts(s: State, finished: set<string>, step: Step, c: Config)
    requires VolleyIsLive(s, finished) && Orderly(s, finished, step) && !step.Send? && !step.Finish?
    ensures VolleyIsLive(Apply(s, step, c), finished)
  {
    hide Apply, SameVolley;
    var s' := Apply(s, step, c);
    OtherStepKeepsTotal(s, step, c);
    assert LiveBatches(s', finished) == LiveBatches(s, finished);
    forall id | id in LiveBatches(s, finished) ensures Volleys(s.batches)(id) == Volleys(s'.batches)(id) {
      StepKeepsVolley(s, step, c, id);
      VolleyOfSame(s.batches[id], s'.batches[id]);
    }
    SumOverSame(LiveBatches(s, finished), Volleys(s.batches), Volleys(s'.batches));
  }

  lemma VolleyOfSame(b: Batch, b': Batch)
    requires SameVolley(b, b')
    ensures b'.volleySize == b.volleySize
  {
  }

  lemma StepCounts(s: State, finished: set<string>, step: Step, c: Config)
    requires VolleyIsLive(s, finished) && Orderly(s, finished, step)
    ensures VolleyIsLive(Apply(s, step, c), NowFinished(finished, step))
  {
    hide VolleyIsLive, Complete, SendBatch;
    match step
    case Send(id, now) => SendCounts(s, finished, id, now, c);
    case Finish(id, now) =>
      if id in s.batches {
        FinishCounts(s, finished, id, now, c);
      } else {
        UnknownFinish(s, finished, id);
      }
    case _ => OtherStepCounts(s, finished, step, c);
  }

  lemma UnknownFinish(s: State, finished: set<string>, id: string)
    requires VolleyIsLive(s, finished) && id !in s.batches
    ensures VolleyIsLive(s, finished + {id})
  {
    assert LiveBatches(s, finished + {id}) == LiveBatches(s, finished);
  }

  /** The total volley is the volley of the batches not completed, and nothing when there are none. */
  lemma {:induction false} TotalVolleyIsLive(steps: seq<Step>, c: Config)
    requires OrderlyRun(steps, c)
    ensures VolleyIsLive(Run(steps, c), Finished(steps))
    ensures Run(steps, c).batches.Keys <= Finished(steps) ==> Run(steps, c).totalVolley == 0.0
    decreases |steps|
  {
    if steps != [] {
      hide Apply, Orderly, NowFinished;
      var before := steps[..|steps| - 1];
      TotalVolleyIsLive(before, c);
      StepCounts(Run(before, c), Finished(before), steps[|steps| - 1], c);
    }
    if Run(steps, c).batches.Keys <= Finished(steps) {
      assert LiveBatches(Run(steps, c), Finished(steps)) == {};
    }
  }

  // The filled fraction

  predicate Counts(s: State, id: string, k: AssetKey) {
    id in s.batches && k in s.batches[id].positions && s.batches[id].positions[k].orderQuantity != 0.0
  }

  /** What was executed of an asset in a batch. */
  ghost function Executed(steps: seq<Step>, c: Config, id: string, k: AssetKey): real
    decreases |steps|
  {
    if steps == [] then 0.0
    else
      var before := steps[..|steps| - 1];
      match steps[|steps| - 1]
      case Send(j, _) => if j == id then 0.0 else Executed(before, c, id, k)
      case Execute(j, k', x, _) =>
        Executed(before, c, id, k) + if j == id && k' == k && Counts(Run(before, c), id, k) then x.quantity else 0.0
      case _ => Executed(before, c, id, k)
  }

  /** Each asset's executed share of its order, weighed by the asset's part of the volley. */
  ghost function FilledShare(positions: Positions, steps: seq<Step>, c: Config, id: string): AssetKey -> real {
    (k: AssetKey) =>
      if k in positions && positions[k].orderQuantity != 0.0
      then Executed(steps, c, id, k) / positions[k].orderQuantity * positions[k].volleySize else 0.0
  }

  ghost predicate ProgressIsExecuted(b: Batch, steps: seq<Step>, c: Config, id: string) {
    && b.volleySize == VolleyOf(b.positions)
    && b.filledVolley == SumOver(b.positions.Keys, FilledShare(b.positions, steps, c, id))
    && b.filledFraction == if b.volleySize == 0.0 then 0.0 else b.filledVolley / b.volleySize
  }

  lemma SameVolleyOf(positions: Positions, positions': Positions)
    requires SamePositions(positions, positions')
    ensures VolleyOf(positions') == VolleyOf(positions)
  {
    forall k | k in positions ensures VolleyAt(positions)(k) == VolleyAt(positions')(k) {
      assert SameFigures(positions[k], positions'[k]);
    }
    SumOverSame(positions.Keys, VolleyAt(positions), VolleyAt(positions'));
  }

  lemma SameExecuted(b: Batch, b': Batch, before: seq<Step>, steps: seq<Step>, c: Config, id: string)
    requires SameProgress(b, b') && ProgressIsExecuted(b, before, c, id)
    requires forall k :: Executed(steps, c, id, k) == Executed(before, c, id, k)
    ensures ProgressIsExecuted(b', steps, c, id)
  {
    SameVolleyOf(b.positions, b'.positions);
    forall k | k in b.positions
      ensures FilledShare(b.positions, before, c, id)(k) == FilledShare(b'.positions, steps, c, id)(k)
    {
      assert SameFigures(b.positions[k], b'.positions[k]);
    }
    SumOverSame(b.positions.Keys, FilledShare(b.positions, before, c, id), FilledShare(b'.positions, steps, c, id));
  }

  lemma NewBatchProgress(e: EngagedOrders, carryOvers: CarryOvers, now: int, steps: seq<Step>, c: Config, id: string)
    requires Priced(e) && forall k :: Executed(steps, c, id, k) == 0.0
    ensures ProgressIsExecuted(NewBatch(e, carryOvers, now), steps, c, id)
  {
    hide Executed, AllCancelled;
    var b := NewBatch(e, carryOvers, now);
    assert SamePositions(NewPositions(e), b.positions);
    SameVolleyOf(NewPositions(e), b.positions);
    forall k | k in b.positions ensures FilledShare(b.positions, steps, c, id)(k) == 0.0 {
      NoShare(b.positions[k].orderQuantity, b.positions[k].volleySize);
    }
    SumOverZero(b.positions.Keys, FilledShare(b.positions, steps, c, id));
  }

  lemma NoShare(quantity: real, volley: real)
    ensures quantity != 0.0 ==> 0.0 / quantity * volley == 0.0
  {
  }

  lemma ShareAdds(x: real, y: real, quantity: real, volley: real)
    requires quantity != 0.0
    ensures (x + y) / quantity * volley == x / quantity * volley + y / quantity * volley
  {
    assert (x + y) / quantity == x / quantity + y / quantity;
  }

  function CountedAt(b: Batch, k: AssetKey, x: Execution, j: AssetKey): real {
    if j == k && k in b.positions && b.positions[k].orderQuantity != 0.0 then x.quantity else 0.0
  }

  /** The part of the volley that an execution fills. */
  function VolleyPart(b: Batch, k: AssetKey, x: Execution): real {
    if k in b.positions && b.positions[k].orderQuantity != 0.0
    then x.quantity / b.positions[k].orderQuantity * b.positions[k].volleySize else 0.0
  }

  lemma UpdateFills(b: Batch, k: AssetKey, x: Execution, now: int)
    ensures var b' := UpdateBatch(b, k, x, now).batch;
      && b'.filledVolley == b.filledVolley + VolleyPart(b, k, x)
      && (b.filledFraction == (if b.volleySize == 0.0 then 0.0 else b.filledVolley / b.volleySize) ==>
            b'.filledFraction == if b.volleySize == 0.0 then 0.0 else b'.filledVolley / b.volleySize)
  {
  }

  lemma ShareGrows(
      b: Batch, b': Batch, k: AssetKey, x: Execution, before: seq<Step>, steps: seq<Step>, c: Config, id: string,
      j: AssetKey)
    requires SamePositions(b.positions, b'.positions) && j in b.positions
    requires Executed(steps, c, id, j) == Executed(before, c, id, j) + CountedAt(b, k, x, j)
    ensures FilledShare(b'.positions, steps, c, id)(j)
         == FilledShare(b.positions, before, c, id)(j) + if j == k then VolleyPart(b, k, x) else 0.0
  {
    hide Executed;
    var p := b.positions[j];
    assert SameFigures(p, b'.positions[j]);
    if p.orderQuantity != 0.0 && j == k {
      ShareAdds(Executed(before, c, id, j), x.quantity, p.orderQuantity, p.volleySize);
    }
  }

  lemma ExecuteProgress(
      b: Batch, k: AssetKey, x: Execution, now: int, before: seq<Step>, steps: seq<Step>, c: Config, id: string)
    requires ProgressIsExecuted(b, before, c, id)
    requires forall j :: Executed(steps, c, id, j) == Executed(before, c, id, j) + CountedAt(b, k, x, j)
    ensures ProgressIsExecuted(UpdateBatch(b, k, x, now).batch, steps, c, id)
  {
    hide Executed, UpdateBatch, VolleyPart, CountedAt, FilledShare, SamePositions;
    var b' := UpdateBatch(b, k, x, now).batch;
    UpdateKeepsVolley(b, k, x, now);
    UpdateFills(b, k, x, now);
    SameVolleyOf(b.positions, b'.positions);
    var f, g := FilledShare(b.positions, before, c, id), FilledShare(b'.positions, steps, c, id);
    forall j | j in b.positions ensures g(j) == f(j) + if j == k then VolleyPart(b, k, x) else 0.0 {
      ShareGrows(b, b', k, x, before, steps, c, id, j);
    }
    SameKeys(b.positions, b'.positions);
    if k in b.positions {
      SumOverChange(b.positions.Keys, f, g, k);
    } else {
      NoVolleyPart(b, k, x);
      SumOverSame(b.positions.Keys, f, g);
    }
  }

  lemma SameKeys(positions: Positions, positions': Positions)
    requires SamePositions(positions, positions')
    ensures positions'.Keys == positions.Keys
  {
  }

  lemma NoVolleyPart(b: Batch, k: AssetKey, x: Execution)
    requires k !in b.positions
    ensures VolleyPart(b, k, x) == 0.0
  {
  }

  ghost predicate SentOnce(steps: seq<Step>, c: Config)
    decreases |steps|
  {
    steps == [] ||
    var before := steps[..|steps| - 1];
    var step := steps[|steps| - 1];
    SentOnce(before, c) && (step.Send? ==> step.id !in Run(before, c).batches)
  }

  /** A batch's filled volley is the executed share of each asset's order, whatever fills, cancels and answers come in
      between. */
  lemma {:induction false} FilledVolleyIsExecuted(steps: seq<Step>, c: Config, id: string)
    requires SentOnce(steps, c) && id in Run(steps, c).batches
    ensures ProgressIsExecuted(Run(steps, c).batches[id], steps, c, id)
    decreases |steps|
  {
    hide ProgressIsExecuted, UpdateBatch, SameProgress;
    var before := steps[..|steps| - 1];
    var step := steps[|steps| - 1];
    var s := Run(before, c);
    if step.Send? && step.id == id {
      SentNow(s, id, step.now, c);
      NewBatchProgress(s.engagements[id], s.carryOvers, step.now, steps, c, id);
    } else {
      WasThere(s, step, c, id);
      FilledVolleyIsExecuted(before, c, id);
      if step.Execute? && step.id == id {
        ExecuteProgress(s.batches[id], step.k, step.x, step.now, before, steps, c, id);
      } else {
        StepKeepsProgress(s, step, c, id);
        SameExecuted(s.batches[id], Run(steps, c).batches[id], before, steps, c, id);
      }
    }
  }

  lemma SentNow(s: State, id: string, now: int, c: Config)
    requires id !in s.batches && id in SendBatch(s, id, now, c).0.batches
    ensures id in s.engagements && Priced(s.engagements[id])
    ensures SendBatch(s, id, now, c).0.batches[id] == NewBatch(s.engagements[id], s.carryOvers, now)
  {
    hide NewBatch, NewPositions, ToSend, Priced;
  }

  lemma WasThere(s: State, step: Step, c: Config, id: string)
    requires id in Apply(s, step, c).batches && !(step.Send? && step.id == id)
    ensures id in s.batches
  {
    hide FillOf, UpdateBatch, CancelAsset, NewBatch, NewPositions, ToSend, Priced;
    if step.Confirm? && step.id in s.engagements {
      AnswersOnly(s, step.id, 0, step.confirmations, step.now);
    }
  }

  lemma {:induction false} SumOverBounds<K(!new)>(s: set<K>, f: K -> real, g: K -> real)
    requires forall k :: k in s ==> 0.0 <= f(k) <= g(k)
    ensures 0.0 <= SumOver(s, f) <= SumOver(s, g)
  {
    if s != {} {
      var k :| k in s && SumOver(s, f) == f(k) + SumOver(s - {k}, f);
      SumOverTake(s, g, k);
      SumOverBounds(s - {k}, f, g);
    }
  }

  lemma ShareBounds(x: real, quantity: real, volley: real)
    requires 0.0 <= x <= quantity && 0.0 < quantity && 0.0 <= volley
    ensures 0.0 <= x / quantity * volley <= volley
  {
    var share := x / quantity;
    assert 0.0 <= share <= 1.0;
    assert share * volley <= 1.0 * volley;
  }

  /** While no asset is executed beyond its order, the filled fraction stays between nothing and one. */
  lemma FilledFractionIsAShare(steps: seq<Step>, c: Config, id: string)
    requires SentOnce(steps, c) && id in Run(steps, c).batches
    requires forall k :: k in Run(steps, c).batches[id].positions ==>
      var p := Run(steps, c).batches[id].positions[k];
      0.0 <= Executed(steps, c, id, k) <= p.orderQuantity && 0.0 < p.orderQuantity && 0.0 <= p.volleySize
    ensures 0.0 <= Run(steps, c).batches[id].filledFraction <= 1.0
  {
    hide Run, Executed, SentOnce;
    var b := Run(steps, c).batches[id];
    FilledVolleyIsExecuted(steps, c, id);
    forall k | k in b.positions ensures 0.0 <= FilledShare(b.positions, steps, c, id)(k) <= VolleyAt(b.positions)(k) {
      ShareBounds(Executed(steps, c, id, k), b.positions[k].orderQuantity, b.positions[k].volleySize);
    }
    SumOverBounds(b.positions.Keys, FilledShare(b.positions, steps, c, id), VolleyAt(b.positions));
    if b.volleySize != 0.0 {
      ShareBounds(b.filledVolley, b.volleySize, 1.0);
    }
  }

  // What is sent has a value

  /** Orders are for nonnegative quantities at positive prices. */
  predicate Valued(e: EngagedOrders) {
    Priced(e) && forall symbol :: symbol in e.quantities ==> 0.0 <= e.quantities[symbol] && 0.0 < e.prices[symbol]
  }

  predicate HasValue(b: Batch, k: AssetKey) {
    k in b.positions && b.positions[k].orderQuantity != 0.0 && b.volleySize != 0.0
  }

  lemma HasValueExactly(b: Batch, k: AssetKey, x: Execution, now: int)
    ensures UpdateBatch(b, k, x, now).ok <==> HasValue(b, k)
  {
  }

  lemma SentHasValue(e: EngagedOrders, carryOvers: CarryOvers, now: int, t: real, symbol: string)
    requires Valued(e) && 0.0 <= t && symbol in ToSend(e, carryOvers, t)
    ensures HasValue(NewBatch(e, carryOvers, now), AssetKey(symbol, Buy))
  {
    hide SumOver, AllCancelled;
    var positions := NewPositions(e);
    var f, k := VolleyAt(positions), AssetKey(symbol, Buy);
    forall j | j in positions ensures 0.0 <= f(j) {
      PriceTimesQuantity(e.prices[j.symbol], e.quantities[j.symbol]);
    }
    PriceTimesQuantity(e.prices[symbol], e.quantities[symbol]);
    SumOverAtLeast(positions.Keys, f, k);
  }

  lemma PriceTimesQuantity(price: real, quantity: real)
    requires 0.0 < price && 0.0 <= quantity
    ensures 0.0 <= price * quantity && (0.0 < quantity ==> 0.0 < price * quantity)
  {
  }

  /** A step that sends the batch. */
  predicate Resends(step: Step, id: string) {
    step.Send? && step.id == id
  }

  lemma {:induction false} KeepsValue(s: State, steps: seq<Step>, c: Config, id: string, k: AssetKey)
    requires id in s.batches ==> HasValue(s.batches[id], k)
    requires forall step :: step in steps ==> !Resends(step, id)
    ensures var s' := RunFrom(s, steps, c); id in s'.batches ==> HasValue(s'.batches[id], k)
    decreases |steps|
  {
    hide Apply;
    if steps != [] {
      var s1 := Apply(s, steps[0], c);
      assert !Resends(steps[0], id);
      if id in s1.batches {
        OnlySendingAdds(s, steps[0], c, id);
        StepKeepsVolley(s, steps[0], c, id);
      }
      KeepsValue(s1, steps[1..], c, id, k);
    }
  }

  lemma OnlySendingAdds(s: State, step: Step, c: Config, id: string)
    requires id in Apply(s, step, c).batches && !Resends(step, id)
    ensures id in s.batches
  {
    hide FillOf, UpdateBatch, CancelAsset, NewBatch, NewPositions, ToSend, CarryOut, CarryAll, Continued, Promote;
    match step
    case Confirm(j, confirmations, now) =>
      if j in s.engagements { AnswersOnly(s, j, 0, confirmations, now); }
    case _ =>
  }

  /** Whatever happens after a batch was sent, an execution of an asset that was sent to the exchange is booked: as long
      as the batch is there, its order and the volley have a value to divide by. */
  lemma SentAssetsAreBooked(
      s: State, id: string, now: int, steps: seq<Step>, c: Config, orders: map<string, AssetOrder>, symbol: string,
      x: Execution, later: int)
    requires SendBatch(s, id, now, c).1.Done? && 0.0 <= c.th.zero && Valued(s.engagements[id])
    requires SendBatch(s, id, now, c).0.outbox == s.outbox + [SendOrders(id, orders)] && symbol in orders
    requires forall step :: step in steps ==> !Resends(step, id)
    ensures var s' := RunFrom(SendBatch(s, id, now, c).0, steps, c);
      id in s'.batches ==> UpdateBatch(s'.batches[id], AssetKey(symbol, Buy), x, later).ok
  {
    hide RunFrom, NewBatch, NewPositions, UpdateBatch, HasValue;
    var s1 := SendBatch(s, id, now, c).0;
    assert s1.outbox[|s.outbox|] == SendOrders(id, orders);
    SentHasValue(s.engagements[id], s.carryOvers, now, c.th.zero, symbol);
    KeepsValue(s1, steps, c, id, AssetKey(symbol, Buy));
    if id in RunFrom(s1, steps, c).batches {
      HasValueExactly(RunFrom(s1, steps, c).batches[id], AssetKey(symbol, Buy), x, later);
    }
  }
}
