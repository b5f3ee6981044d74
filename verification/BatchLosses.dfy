/** When exactly lots are lost. */
module BatchLosses {
  import opened Common
  import opened BatchLots
  import opened BatchFillSpec
  import opened BatchFillTheory
  import opened BatchManagerSpec
  import opened BatchRuns
  import opened BatchSafety
  import opened BatchShortage
  import opened ManagerSteps
  import opened ManagerEvents
  import opened Conservation = BatchConservation

  const QUANTITY := Measure(false, None)

  /** A step that drops a batch which still holds something: a cleanup, or sending a batch again. */
  ghost predicate Drops(s: State, step: Step) {
    match step
    case Clean => exists id :: id in CancelledIn(s) && !HoldsNothing(s.batches[id])
    case Send(id, _) => Sends(s, id) && id in s.batches && !HoldsNothing(s.batches[id])
    case _ => false
  }

  ghost predicate EverDrops(steps: seq<Step>, c: Config)
    decreases |steps|
  {
    steps != [] &&
    var before := steps[..|steps| - 1];
    EverDrops(before, c) || Drops(Run(before, c), steps[|steps| - 1])
  }

  lemma OpenNonNegative(positions: Positions, k: AssetKey)
    requires UsablePositions(positions)
    ensures 0.0 <= OpenAt(positions, k, QUANTITY)
  {
    if k in positions {
      assert Usable(positions[k].openLots);
      SumByNonNegative(positions[k].openLots, LotWeight(QUANTITY));
    }
  }

  lemma {:induction false} SomethingOpen(lots: seq<BatchLot>, l: BatchLot)
    requires Usable(lots) && l in lots && l.remaining != 0.0
    ensures 0.0 < SumBy(lots, LotWeight(QUANTITY))
  {
    assert lots[0] in lots;
    if l in lots[1..] {
      SomethingOpen(lots[1..], l);
    } else {
      assert l == lots[0];
      SumByNonNegative(lots[1..], LotWeight(QUANTITY));
    }
  }

  /** A batch with usable lots holds nothing exactly when it weighs nothing. */
  lemma WeighsSomething(b: Batch) returns (k: AssetKey)
    requires UsablePositions(b.positions) && !HoldsNothing(b)
    ensures 0.0 < OpenAt(b.positions, k, QUANTITY)
  {
    var l: BatchLot;
    k, l :| k in b.positions && l in b.positions[k].openLots && l.remaining != 0.0;
    SomethingOpen(b.positions[k].openLots, l);
  }

  lemma BatchesNonNegative(s: State, k: AssetKey)
    requires Stocked(s)
    ensures forall id :: 0.0 <= OpenIn(s.batches, k, QUANTITY)(id)
  {
    hide OpenAt, UsablePositions;
    forall id ensures 0.0 <= OpenIn(s.batches, k, QUANTITY)(id) {
      if id in s.batches {
        OpenNonNegative(s.batches[id].positions, k);
      }
    }
  }

  lemma LostNonNegative(s: State, step: Step, k: AssetKey)
    requires Stocked(s)
    ensures 0.0 <= FlowOf(s, step, k, QUANTITY).lost
  {
    hide OpenIn, Stocked;
    BatchesNonNegative(s, k);
    SumOverNonNegative(CancelledIn(s), OpenIn(s.batches, k, QUANTITY));
  }

  lemma NothingDropped(s: State, step: Step, k: AssetKey, m: Measure)
    requires !Drops(s, step)
    ensures FlowOf(s, step, k, m).lost == 0.0
  {
    hide HoldsNothing, OpenAt;
    match step
    case Clean =>
      forall id | id in CancelledIn(s) ensures OpenIn(s.batches, k, m)(id) == 0.0 {
        EmptiedWeighsNothing(s.batches[id], k, m);
      }
      SumOverZero(CancelledIn(s), OpenIn(s.batches, k, m));
    case Send(id, _) => if Sends(s, id) && id in s.batches { EmptiedWeighsNothing(s.batches[id], k, m); }
    case _ =>
  }

  lemma SomethingDropped(s: State, step: Step) returns (k: AssetKey)
    requires Stocked(s) && Drops(s, step)
    ensures 0.0 < FlowOf(s, step, k, QUANTITY).lost
  {
    hide HoldsNothing, OpenAt, UsablePositions;
    var id := "";
    if step.Clean? {
      id :| id in CancelledIn(s) && !HoldsNothing(s.batches[id]);
    } else {
      id := step.id;
    }
    k := WeighsSomething(s.batches[id]);
    BatchesNonNegative(s, k);
    if step.Clean? {
      SumOverAtLeast(CancelledIn(s), OpenIn(s.batches, k, QUANTITY), id);
    }
  }

  lemma {:induction false} LossesAddUp(steps: seq<Step>, c: Config, k: AssetKey)
    requires (forall step :: step in steps ==> Plain(step)) && 0.0 <= c.th.zero
    ensures 0.0 <= Flows(steps, c, k, QUANTITY).lost
    decreases |steps|
  {
    hide Run, FlowOf, Stocked, Plain;
    if steps != [] {
      var before := steps[..|steps| - 1];
      LossesAddUp(before, c, k);
      RunsAreStocked(before, c);
      LostNonNegative(Run(before, c), steps[|steps| - 1], k);
    }
  }

  lemma {:induction false} NeverDropped(steps: seq<Step>, c: Config, k: AssetKey, m: Measure)
    requires !EverDrops(steps, c)
    ensures Flows(steps, c, k, m).lost == 0.0
    decreases |steps|
  {
    hide Run, FlowOf, Drops;
    if steps != [] {
      var before := steps[..|steps| - 1];
      NeverDropped(before, c, k, m);
      NothingDropped(Run(before, c), steps[|steps| - 1], k, m);
    }
  }

  lemma {:induction false} OnceDropped(steps: seq<Step>, c: Config) returns (k: AssetKey)
    requires (forall step :: step in steps ==> Plain(step)) && 0.0 <= c.th.zero && EverDrops(steps, c)
    ensures 0.0 < Flows(steps, c, k, QUANTITY).lost
    decreases |steps|
  {
    hide Run, FlowOf, Drops, Stocked, Plain;
    var before, step := steps[..|steps| - 1], steps[|steps| - 1];
    RunsAreStocked(before, c);
    if EverDrops(before, c) {
      k := OnceDropped(before, c);
      LostNonNegative(Run(before, c), step, k);
    } else {
      k := SomethingDropped(Run(before, c), step);
      LossesAddUp(before, c, k);
    }
  }

  /** Over any run nothing is lost, in quantity or fees, of any lot, if and only if no batch that still holds something
      is cleaned up or sent again. */
  lemma NothingIsLostExactly(steps: seq<Step>, c: Config)
    requires (forall step :: step in steps ==> Plain(step)) && 0.0 <= c.th.zero
    ensures (forall k, m :: Flows(steps, c, k, m).lost == 0.0) <==> !EverDrops(steps, c)
  {
    hide Flows, EverDrops, Plain;
    if EverDrops(steps, c) {
      var k := OnceDropped(steps, c);
      assert Flows(steps, c, k, QUANTITY).lost != 0.0;
    } else {
      forall k, m ensures Flows(steps, c, k, m).lost == 0.0 {
        NeverDropped(steps, c, k, m);
      }
    }
  }

  // A round whose first fill fails

  predicate Unfillable(o: SolverOrder) {
    !o.status.FullyMintable? && !o.status.Engaged? && !o.status.PartlyMintable?
  }

  /** The next batch to send, whose first order cannot be filled. */
  ghost predicate WillFail(s: State, id: string, c: Config) {
    && s.readyBatches == [id] && 1 <= c.maxBatchSize && Sends(s, id) && id !in s.batches
    && var key := s.engagements[id].orders[0].order;
       key in s.orders && Unfillable(s.orders[key])
  }

  lemma UnfillableStays(s: State, id: string, th: Thresholds)
    requires CanFill(s, id, 0) && Unfillable(s.orders[s.engagements[id].orders[0].order])
    ensures FillFrom(s, id, 0, th) == (s, Failed)
  {
    var es := s.engagements[id];
    var key := es.orders[0].order;
    var f := FillOf(s, id, 0, th);
    assert f == Filled(s.batches[id].positions, es.orders[0], s.orders[key], false, None, Some(InvalidState));
    assert es.orders[0 := es.orders[0]] == es.orders;
    assert s.outbox + [] == s.outbox;
    assert s.orders[key := s.orders[key]] == s.orders;
    assert s.batches[id := s.batches[id]] == s.batches;
    assert s.engagements[id := es] == s.engagements;
    assert AfterFill(s, id, 0, f) == s;
  }

  /** The round sends the batch, with whatever was carried over for it, and stops there: the batch is not completed,
      even if nothing was ordered for it, and cancelled batches are not cleaned up. */
  lemma FailingRound(s: State, id: string, now: int, c: Config)
    requires WillFail(s, id, c)
    ensures ProcessBatches(s, now, c) == (SendBatch(s.(readyBatches := []), id, now, c).0, Failed)
  {
    hide NewBatch, NewPositions, ToSend, FillFrom;
    var taken := s.(readyBatches := []);
    assert [id][..1] == [id] && [id][1..] == [];
    var first := SendBatch(taken, id, now, c);
    assert SendAll(first.0, [], now, c) == Sending(first.0, [], true);
    assert SendAll(taken, [id], now, c) == Sending(first.0, [id], true) by {
      assert [id] + [] == [id];
    }
    UnfillableStays(first.0, id, c.th);
    assert FirstFill(first.0, id, now, c) == (first.0, Failed);
    assert FirstFillAll(first.0, [], now, c) == (first.0, Done);
    assert FirstFillAll(first.0, [id], now, c) == (first.0, Failed);
    assert s.readyBatches[..1] == [id] && s.readyBatches[1..] == [];
  }

  /** A round with nothing to send removes the cancelled batches. */
  lemma IdleRound(s: State, now: int, c: Config)
    requires s.readyBatches == []
    ensures ProcessBatches(s, now, c) == (Cleanup(s), Done)
    ensures ProcessSteps(s, now, c) == [TakeReady(0), Clean]
  {
    assert s.readyBatches[..0] == [] && s.readyBatches[0..] == [];
    assert s.(readyBatches := []) == s;
    assert SendAll(s, [], now, c) == Sending(s, [], true);
  }

  /** What was carried over for a batch that needs nothing else is gone when its first fill failed and the next round
      has nothing to send. */
  lemma FailedBatchIsLost(s: State, id: string, now: int, later: int, c: Config, k: AssetKey, m: Measure)
    requires WillFail(s, id, c) && Stocked(s) && k in s.carryOvers
    requires var news := NewPositions(s.engagements[id]); k in news && news.Keys <= s.carryOvers.Keys
    ensures var first := ProcessBatches(s, now, c).0; var second := ProcessBatches(first, later, c).0;
      && id in first.batches && first.batches[id].cancelled && k !in first.carryOvers
      && OpenIn(first.batches, k, m)(id) == CarriedAt(s.carryOvers, k, m)
      && id !in second.batches && id !in second.engagements && k !in second.carryOvers
  {
    hide VolleyOf, NewPositions, ToSend, ProcessBatches;
    FailingRound(s, id, now, c);
    var first := ProcessBatches(s, now, c).0;
    IdleRound(first, later, c);
    SoundlyStocked(s);
    CarryInMoves(s.engagements[id], s.carryOvers, k, m);
  }

  lemma SoundlyStocked(s: State)
    requires Stocked(s)
    ensures forall k :: k in s.carryOvers ==> SoundLots(s.carryOvers[k].lots)
  {
    forall k | k in s.carryOvers ensures SoundLots(s.carryOvers[k].lots) {
      assert Usable(s.carryOvers[k].lots);
    }
  }
}
