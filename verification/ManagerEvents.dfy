/** Runs of the batch manager's own events. While batches are left alone once they completed and rounds of processing
    succeed, such a run takes only the steps that the results about steps allow. */
module ManagerEvents {
  import opened Common
  import opened BatchLots
  import opened BatchFillSpec
  import opened BatchFillTheory
  import opened BatchManagerSpec
  import opened BatchRuns
  import opened ManagerSteps
  import opened BatchSafety
  import Conservation = BatchConservation
  import BatchVolley

  datatype Event =
    | EngagementArrives(id: string, e: EngagedOrders)
    | AnswersArrive(id: string, confirmations: map<string, Confirmation>, now: int)
    | Round(now: int)
    | LotArrives(id: string, k: AssetKey, x: Execution, now: int)
    | CancelArrives(id: string, k: AssetKey, quantity: real, cancelled: bool, now: int)
    | OrderArrives(key: string, o: SolverOrder)
    | OrderChanges(key: string, o: SolverOrder)
    | OrderMinted(key: string)

  ghost function Handle(s: State, event: Event, c: Config): State {
    match event
    case EngagementArrives(id, e) => NewEngagement(s, id, e).0
    case AnswersArrive(id, confirmations, now) =>
      if id in s.engagements then EngageOrders(s, id, confirmations, now) else s
    case Round(now) => ProcessBatches(s, now, c).0
    case LotArrives(id, k, x, now) => HandleNewLot(s, id, k, x, now, c).0
    case CancelArrives(id, k, quantity, cancelled, now) => HandleCancelOrder(s, id, k, quantity, cancelled, now, c).0
    case OrderArrives(key, o) => Apply(s, Arrive(key, o), c)
    case OrderChanges(key, o) => Apply(s, Change(key, o), c)
    case OrderMinted(key) => Apply(s, Drain(key), c)
  }

  ghost function StepsOf(s: State, event: Event, c: Config): seq<Step> {
    match event
    case EngagementArrives(id, e) => [Register(id, e)]
    case AnswersArrive(id, confirmations, now) => [Confirm(id, confirmations, now)]
    case Round(now) => ProcessSteps(s, now, c)
    case LotArrives(id, k, x, now) => NewLotSteps(s, id, k, x, now, c)
    case CancelArrives(id, k, quantity, cancelled, now) => CancelSteps(s, id, k, quantity, cancelled, now)
    case OrderArrives(key, o) => [Arrive(key, o)]
    case OrderChanges(key, o) => [Change(key, o)]
    case OrderMinted(key) => [Drain(key)]
  }

  lemma HandleIsSteps(s: State, event: Event, c: Config)
    ensures RunFrom(s, StepsOf(s, event, c), c) == Handle(s, event, c)
  {
    hide ProcessBatches, ProcessSteps, HandleNewLot, NewLotSteps, HandleCancelOrder, CancelSteps;
    match event
    case Round(now) => ProcessIsSteps(s, now, c);
    case LotArrives(id, k, x, now) => NewLotIsSteps(s, id, k, x, now, c);
    case CancelArrives(id, k, quantity, cancelled, now) => CancelIsSteps(s, id, k, quantity, cancelled, now, c);
    case _ =>
      var step := StepsOf(s, event, c)[0];
      assert [step][1..] == [];
      assert RunFrom(s, [step], c) == Apply(s, step, c);
  }

  // What the rest of the solver promises for an event

  ghost predicate Expected(s: State, event: Event, c: Config, strict: bool) {
    match event
    case EngagementArrives(_, e) => KnownOrders(e.orders, s.orders) && FairShares(e.orders) && Unfilled(e.orders)
    case AnswersArrive(id, _, _) => id !in s.readyBatches && id !in s.batches
    case Round(now) => strict ==> ProcessBatches(s, now, c).1.Done?
    case LotArrives(id, k, x, now) =>
      && 0.0 < x.quantity
      && (id in s.batches ==>
            && !s.batches[id].cancelled
            && (k in s.batches[id].positions ==> UpdateBatch(s.batches[id], k, x, now).ok))
    case CancelArrives(id, _, _, _, _) => id in s.batches ==> !s.batches[id].cancelled
    case _ => true
  }

  predicate Marked(b: Batch, finished: bool, strict: bool) {
    (finished ==> b.cancelled) && (strict && b.cancelled ==> finished)
  }

  /** Completed batches are cancelled, and strictly the other way round too; ready batches were not sent yet. */
  ghost predicate Tracked(s: State, finished: set<string>, strict: bool) {
    && (forall id :: id in s.batches ==> Marked(s.batches[id], id in finished, strict))
    && DistinctKeys(s.readyBatches)
    && (forall id :: id in s.readyBatches ==> id !in s.batches)
  }

  ghost predicate SameFlags(s: State, s': State) {
    && s'.readyBatches == s.readyBatches
    && s'.batches.Keys == s.batches.Keys
    && forall id :: id in s.batches ==> s'.batches[id].cancelled == s.batches[id].cancelled
  }

  lemma SameFlagsTracked(s: State, s': State, finished: set<string>, strict: bool)
    requires Tracked(s, finished, strict) && SameFlags(s, s')
    ensures Tracked(s', finished, strict)
  {
  }

  lemma SameFlagsTransitive(a: State, b: State, c: State)
    requires SameFlags(a, b) && SameFlags(b, c)
    ensures SameFlags(a, c)
  {
  }

  // Fills

  lemma {:induction false} FillStepsProper(s: State, finished: set<string>, id: string, i: nat, c: Config, strict: bool)
    requires id !in finished
    ensures ProperFrom(s, finished, FillSteps(s, id, i, c), c, strict)
    ensures FinishedFrom(finished, FillSteps(s, id, i, c)) == finished
    ensures SameFlags(s, FillFrom(s, id, i, c.th).0)
    decreases if id in s.engagements then |s.engagements[id].orders| - i else 0
  {
    hide FillOf;
    if CanFill(s, id, i) {
      var f := FillOf(s, id, i, c.th);
      var s' := AfterFill(s, id, i, f);
      assert SameFlags(s, s');
      var rest := if f.error.Some? then [] else FillSteps(s', id, i + 1, c);
      assert FillSteps(s, id, i, c) == [FillNext(id, i)] + rest;
      hide SameFlags;
      ProperOne(s, finished, FillNext(id, i), c, strict);
      if f.error.None? {
        FillStepsProper(s', finished, id, i + 1, c, strict);
        SameFlagsTransitive(s, s', FillFrom(s', id, i + 1, c.th).0);
      }
      ProperAppend(s, finished, [FillNext(id, i)], rest, c, strict);
    }
  }

  lemma LotIsProper(
      s: State, finished: set<string>, id: string, k: AssetKey, x: Execution, now: int, c: Config, strict: bool)
    requires Tracked(s, finished, strict) && Expected(s, LotArrives(id, k, x, now), c, strict)
    ensures var steps := NewLotSteps(s, id, k, x, now, c);
      && ProperFrom(s, finished, steps, c, strict)
      && Tracked(HandleNewLot(s, id, k, x, now, c).0, FinishedFrom(finished, steps), strict)
  {
    hide FillSteps, FillFrom;
    if id in s.batches {
      var step := Execute(id, k, x, now);
      var s' := Apply(s, step, c);
      var u := UpdateBatch(s.batches[id], k, x, now);
      UpdateKeepsFlag(s.batches[id], k, x, now);
      hide UpdateBatch;
      assert SameFlags(s, s');
      SameFlagsTracked(s, s', finished, strict);
      assert Proper(s, finished, step, strict);
      ProperOne(s, finished, step, c, strict);
      var rest := if u.ok then FillSteps(s', id, 0, c) else [];
      if u.ok {
        FillStepsProper(s', finished, id, 0, c, strict);
        SameFlagsTracked(s', FillFrom(s', id, 0, c.th).0, finished, strict);
      }
      ProperAppend(s, finished, [step], rest, c, strict);
    }
  }

  lemma UpdateKeepsFlag(b: Batch, k: AssetKey, x: Execution, now: int)
    ensures UpdateBatch(b, k, x, now).batch.cancelled == b.cancelled
  {
  }

  // Cancels

  lemma CompleteFlags(s: State, id: string, now: int, c: Config)
    requires id in s.batches
    ensures SameFlags(s, Complete(s, id, now, c).0)
  {
    hide DueMints, Promote, Continued, CarryAll, CarryOut, Emptied;
  }

  /** Cancelling an asset of a batch that is not cancelled yet, up to its completion. */
  lemma CancelTracks(s: State, finished: set<string>, id: string, b: Batch, strict: bool)
    requires Tracked(s, finished, strict) && id in s.batches && !s.batches[id].cancelled
    ensures var s' := s.(batches := s.batches[id := b]);
      if b.cancelled then Tracked(s', finished + {id}, strict) else Tracked(s', finished, strict)
  {
  }

  lemma CancelIsProper(
      s: State, finished: set<string>, id: string, k: AssetKey, quantity: real, cancelled: bool, now: int, c: Config,
      strict: bool)
    requires Tracked(s, finished, strict) && (id in s.batches ==> !s.batches[id].cancelled)
    ensures var steps := CancelSteps(s, id, k, quantity, cancelled, now);
      && ProperFrom(s, finished, steps, c, strict)
      && Tracked(HandleCancelOrder(s, id, k, quantity, cancelled, now, c).0, FinishedFrom(finished, steps), strict)
  {
    hide Complete, CancelAsset, SameFlags;
    if id in s.batches && k in s.batches[id].positions {
      var step := CancelOrder(id, k, quantity, cancelled);
      var b := CancelAsset(s.batches[id], k, quantity, cancelled);
      var s' := Apply(s, step, c);
      CancelTracks(s, finished, id, b, strict);
      assert id !in finished;
      hide Tracked;
      ProperOne(s, finished, step, c, strict);
      var rest := if b.cancelled then [Finish(id, now)] else [];
      if b.cancelled {
        ProperOne(s', finished, Finish(id, now), c, strict);
        CompleteFlags(s', id, now, c);
        SameFlagsTracked(s', Complete(s', id, now, c).0, finished + {id}, strict);
      }
      ProperAppend(s, finished, [step], rest, c, strict);
    }
  }

  // A round of processing

  /** The batches `ids` are sent but not completed; all others are marked. */
  ghost predicate Pending(s: State, finished: set<string>, ids: seq<string>, strict: bool) {
    && DistinctKeys(ids)
    && (forall id :: id in ids ==> id in s.batches && id !in finished)
    && (forall id :: id in s.batches && id !in ids ==> Marked(s.batches[id], id in finished, strict))
    && DistinctKeys(s.readyBatches)
    && (forall id :: id in s.readyBatches ==> id !in s.batches)
  }

  lemma FlagsKeepPending(s: State, s': State, finished: set<string>, ids: seq<string>, strict: bool)
    requires Pending(s, finished, ids, strict) && SameFlags(s, s')
    ensures Pending(s', finished, ids, strict)
  {
  }

  lemma FirstDone(s: State, finished: set<string>, ids: seq<string>, finishes: bool, strict: bool)
    requires ids != [] && Pending(s, finished, ids, strict)
    requires (finishes ==> s.batches[ids[0]].cancelled) && (strict ==> finishes == s.batches[ids[0]].cancelled)
    ensures Pending(s, if finishes then finished + {ids[0]} else finished, ids[1..], strict)
  {
    assert ids == [ids[0]] + ids[1..];
  }

  lemma OneFirstFill(
      s: State, finished: set<string>, ids: seq<string>, now: int, c: Config, finishes: bool, strict: bool)
    requires ids != [] && Pending(s, finished, ids, strict) && (strict ==> FirstFill(s, ids[0], now, c).1.Done?)
    requires var filled := FillFrom(s, ids[0], 0, c.th);
      finishes == (filled.1.Done? && ids[0] in filled.0.batches && filled.0.batches[ids[0]].cancelled)
    ensures var steps := FillSteps(s, ids[0], 0, c) + if finishes then [Finish(ids[0], now)] else [];
      && ProperFrom(s, finished, steps, c, strict)
      && Pending(FirstFill(s, ids[0], now, c).0, FinishedFrom(finished, steps), ids[1..], strict)
      && RunFrom(s, steps, c) == FirstFill(s, ids[0], now, c).0
  {
    hide FillFrom, FillSteps, Complete, Pending;
    var id := ids[0];
    var filled := FillFrom(s, id, 0, c.th).0;
    PendingFirst(s, finished, ids, strict);
    FillStepsProper(s, finished, id, 0, c, strict);
    FillFromIsSteps(s, id, 0, c);
    FlagsKeepPending(s, filled, finished, ids, strict);
    PendingFirst(filled, finished, ids, strict);
    FirstDone(filled, finished, ids, finishes, strict);
    var last := if finishes then [Finish(id, now)] else [];
    if finishes {
      ProperOne(filled, finished, Finish(id, now), c, strict);
      CompleteFlags(filled, id, now, c);
      FlagsKeepPending(filled, Complete(filled, id, now, c).0, finished + {id}, ids[1..], strict);
    }
    ProperAppend(s, finished, FillSteps(s, id, 0, c), last, c, strict);
  }

  lemma PendingFirst(s: State, finished: set<string>, ids: seq<string>, strict: bool)
    requires ids != [] && Pending(s, finished, ids, strict)
    ensures ids[0] in s.batches && ids[0] !in finished
  {
  }

  lemma {:induction false} FirstFillsProper(
      s: State, finished: set<string>, ids: seq<string>, now: int, c: Config, strict: bool)
    requires Pending(s, finished, ids, strict) && (strict ==> FirstFillAll(s, ids, now, c).1.Done?)
    ensures var steps := FirstFillSteps(s, ids, now, c);
      && ProperFrom(s, finished, steps, c, strict)
      && Pending(FirstFillAll(s, ids, now, c).0, FinishedFrom(finished, steps), [], strict)
      && RunFrom(s, steps, c) == FirstFillAll(s, ids, now, c).0
    decreases |ids|
  {
    hide FillFrom, FillSteps, FirstFill, Pending;
    if ids != [] {
      var id := ids[0];
      var filled := FillFrom(s, id, 0, c.th);
      var finishes := filled.1.Done? && id in filled.0.batches && filled.0.batches[id].cancelled;
      var these := FillSteps(s, id, 0, c) + if finishes then [Finish(id, now)] else [];
      var s' := FirstFill(s, id, now, c).0;
      OneFirstFill(s, finished, ids, now, c, finishes, strict);
      FirstFillsProper(s', FinishedFrom(finished, these), ids[1..], now, c, strict);
      ProperAppend(s, finished, these, FirstFillSteps(s', ids[1..], now, c), c, strict);
    }
  }

  /** Batches about to be sent: not sent yet, each once. */
  ghost predicate Unsent(s: State, ids: seq<string>) {
    DistinctKeys(ids) && (forall id :: id in ids ==> id !in s.batches && id !in s.readyBatches)
  }

  lemma OneSent(s: State, finished: set<string>, ids: seq<string>, sent: seq<string>, now: int, c: Config, strict: bool)
    requires ids != [] && Pending(s, finished, sent, strict) && Unsent(s, ids)
    ensures Proper(s, finished, Send(ids[0], now), strict)
    ensures var sending := SendBatch(s, ids[0], now, c);
      && Pending(sending.0, finished - {ids[0]}, if sending.1.Done? then sent + [ids[0]] else sent, strict)
      && Unsent(sending.0, ids[1..])
  {
    hide NewBatch, NewPositions, ToSend, VolleyOf;
    assert ids == [ids[0]] + ids[1..];
    var s' := SendBatch(s, ids[0], now, c).0;
    if SendBatch(s, ids[0], now, c).1.Done? {
      assert s'.batches.Keys == s.batches.Keys + {ids[0]};
      assert forall id :: id in s.batches ==> s'.batches[id] == s.batches[id];
    } else {
      assert s' == s;
    }
  }

  lemma {:induction false} SendsProper(
      s: State, finished: set<string>, ids: seq<string>, sent: seq<string>, now: int, c: Config, strict: bool)
    requires Pending(s, finished, sent, strict) && Unsent(s, ids)
    ensures var steps := SendSteps(s, ids, now, c); var sending := SendAll(s, ids, now, c);
      && ProperFrom(s, finished, steps, c, strict)
      && Pending(sending.s, FinishedFrom(finished, steps), sent + sending.sent, strict)
      && RunFrom(s, steps, c) == sending.s
    decreases |ids|
  {
    hide SendBatch, Pending, Unsent, Proper;
    if ids == [] {
      assert sent + [] == sent;
    } else if ids[0] !in s.engagements {
      UnsentRest(s, ids);
      SendsProper(s, finished, ids[1..], sent, now, c, strict);
    } else {
      var (s', answer) := SendBatch(s, ids[0], now, c);
      OneSent(s, finished, ids, sent, now, c, strict);
      ProperOne(s, finished, Send(ids[0], now), c, strict);
      var sent' := if answer.Done? then sent + [ids[0]] else sent;
      SendsProper(s', finished - {ids[0]}, ids[1..], sent', now, c, strict);
      var rest := SendAll(s', ids[1..], now, c).sent;
      assert sent + [ids[0]] + rest == sent + ([ids[0]] + rest);
      ProperAppend(s, finished, [Send(ids[0], now)], SendSteps(s', ids[1..], now, c), c, strict);
    }
  }

  lemma UnsentRest(s: State, ids: seq<string>)
    requires ids != [] && Unsent(s, ids)
    ensures Unsent(s, ids[1..])
  {
  }

  lemma TakenIsUnsent(s: State, finished: set<string>, n: nat, strict: bool)
    requires Tracked(s, finished, strict) && n <= |s.readyBatches|
    ensures var taken := s.(readyBatches := s.readyBatches[n..]);
      Pending(taken, finished, [], strict) && Unsent(taken, s.readyBatches[..n])
  {
    var ids, rest := s.readyBatches[..n], s.readyBatches[n..];
    assert s.readyBatches == ids + rest;
    forall i, j | 0 <= i < n && 0 <= j < |rest| ensures ids[i] != rest[j] {
      assert ids[i] == s.readyBatches[i] && rest[j] == s.readyBatches[n + j];
    }
  }

  lemma CleanTracks(s: State, finished: set<string>, strict: bool)
    requires Pending(s, finished, [], strict)
    ensures Tracked(s, finished, strict) && Proper(s, finished, Clean, strict) && Tracked(Cleanup(s), finished, strict)
  {
  }

  lemma RoundIsProper(s: State, finished: set<string>, now: int, c: Config, strict: bool)
    requires Tracked(s, finished, strict) && (strict ==> ProcessBatches(s, now, c).1.Done?)
    ensures var steps := ProcessSteps(s, now, c);
      && ProperFrom(s, finished, steps, c, strict)
      && Tracked(ProcessBatches(s, now, c).0, FinishedFrom(finished, steps), strict)
  {
    hide SendAll, SendSteps, FirstFillAll, FirstFillSteps, Cleanup, Pending, Unsent, Tracked, Proper;
    var n := if |s.readyBatches| < c.maxBatchSize then |s.readyBatches| else c.maxBatchSize;
    var ids := s.readyBatches[..n];
    var taken := Apply(s, TakeReady(n), c);
    var sending := SendAll(taken, ids, now, c);
    var filled := FirstFillAll(sending.s, sending.sent, now, c).0;
    var first, second := [TakeReady(n)], SendSteps(taken, ids, now, c);
    var third := FirstFillSteps(sending.s, sending.sent, now, c);
    var last := if ProcessBatches(s, now, c).1.Done? then [Clean] else [];
    TakingIsProper(s, finished, n, strict);
    ProperOne(s, finished, TakeReady(n), c, strict);
    TakenIsUnsent(s, finished, n, strict);
    SendsProper(taken, finished, ids, [], now, c, strict);
    assert [] + sending.sent == sending.sent;
    var finished2 := FinishedFrom(finished, second);
    FirstFillsProper(sending.s, finished2, sending.sent, now, c, strict);
    var finished3 := FinishedFrom(finished2, third);
    CleanTracks(filled, finished3, strict);
    if last != [] {
      ProperOne(filled, finished3, Clean, c, strict);
    }
    ProperAppend(s, finished, first, second, c, strict);
    ProperAppend(s, finished, first + second, third, c, strict);
    ProperAppend(s, finished, first + second + third, last, c, strict);
  }

  lemma TakingIsProper(s: State, finished: set<string>, n: nat, strict: bool)
    ensures Proper(s, finished, TakeReady(n), strict) && NowFinished(finished, TakeReady(n)) == finished
  {
  }

  // Every event

  lemma AnswersAreProper(
      s: State, finished: set<string>, id: string, confirmations: map<string, Confirmation>, now: int, c: Config,
      strict: bool)
    requires Tracked(s, finished, strict) && id !in s.readyBatches && id !in s.batches && id in s.engagements
    ensures Tracked(EngageOrders(s, id, confirmations, now), finished, strict)
  {
    hide EngageFrom;
    AnswersOnly(s, id, 0, confirmations, now);
  }

  lemma EventIsProper(s: State, finished: set<string>, event: Event, c: Config, strict: bool)
    requires Tracked(s, finished, strict) && Expected(s, event, c, strict)
    ensures var steps := StepsOf(s, event, c);
      ProperFrom(s, finished, steps, c, strict) && Tracked(Handle(s, event, c), FinishedFrom(finished, steps), strict)
  {
    hide ProcessBatches, ProcessSteps, HandleNewLot, NewLotSteps, HandleCancelOrder, CancelSteps, EngageOrders,
      KnownOrders, FairShares, Unfilled, UpdateBatch;
    match event
    case Round(now) => RoundIsProper(s, finished, now, c, strict);
    case LotArrives(id, k, x, now) => LotIsProper(s, finished, id, k, x, now, c, strict);
    case CancelArrives(id, k, quantity, cancelled, now) =>
      CancelIsProper(s, finished, id, k, quantity, cancelled, now, c, strict);
    case AnswersArrive(id, confirmations, now) =>
      ProperOne(s, finished, Confirm(id, confirmations, now), c, strict);
      if id in s.engagements { AnswersAreProper(s, finished, id, confirmations, now, c, strict); }
    case _ => ProperOne(s, finished, StepsOf(s, event, c)[0], c, strict);
  }

  // Runs of events

  ghost function RunEvents(events: seq<Event>, c: Config): State
    decreases |events|
  {
    if events == [] then NOTHING else Handle(RunEvents(events[..|events| - 1], c), events[|events| - 1], c)
  }

  ghost function AllSteps(events: seq<Event>, c: Config): seq<Step>
    decreases |events|
  {
    if events == [] then []
    else
      var before := events[..|events| - 1];
      AllSteps(before, c) + StepsOf(RunEvents(before, c), events[|events| - 1], c)
  }

  ghost predicate ExpectedRun(events: seq<Event>, c: Config, strict: bool)
    decreases |events|
  {
    events == [] ||
    var before := events[..|events| - 1];
    ExpectedRun(before, c, strict) && Expected(RunEvents(before, c), events[|events| - 1], c, strict)
  }

  /** A run of expected events is a run of proper steps, and ends in the same state. */
  lemma {:induction false} EventsAreProper(events: seq<Event>, c: Config, strict: bool)
    requires ExpectedRun(events, c, strict)
    ensures Run(AllSteps(events, c), c) == RunEvents(events, c)
    ensures ProperRun(AllSteps(events, c), c, strict)
    ensures Tracked(RunEvents(events, c), Finished(AllSteps(events, c)), strict)
    decreases |events|
  {
    hide Handle, StepsOf, Expected, Tracked, ProperFrom, RunFrom, FinishedFrom, NowFinished, Apply;
    if events == [] {
      NothingIsTracked(strict);
    } else {
      var before, event := events[..|events| - 1], events[|events| - 1];
      EventsAreProper(before, c, strict);
      var s, finished := RunEvents(before, c), Finished(AllSteps(before, c));
      EventIsProper(s, finished, event, c, strict);
      HandleIsSteps(s, event, c);
      MoreSteps(AllSteps(before, c), StepsOf(s, event, c), c, strict);
    }
  }

  lemma NothingIsTracked(strict: bool)
    ensures Tracked(NOTHING, {}, strict)
  {
  }

  // The results, for events

  /** Without a tolerance the batch manager never reports insufficient lots, in any run of expected events: not in a
      fill that was made, nor in any that could be made in a batch that is not cancelled. */
  lemma EventsNeverRunShort(events: seq<Event>, c: Config, t: real)
    requires ExpectedRun(events, c, false) && t == 0.0 && c.th.zero == t
    ensures !EverShort(AllSteps(events, c), c)
    ensures var s := RunEvents(events, c);
      forall id, i: nat :: CanFill(s, id, i) && !s.batches[id].cancelled ==> !RunsShort(FillOf(s, id, i, c.th))
  {
    hide RunEvents, AllSteps, ExpectedRun, ProperRun, LegalRun, Run, Finished, FillOf;
    EventsAreProper(events, c, false);
    ProperIsLegal(AllSteps(events, c), c, false);
    NeverShortOnRuns(AllSteps(events, c), c, t);
  }

  /** In any run of expected events whose rounds succeed nothing is lost: what was acquired of an asset, or its fees, is
      in batches, carried over, with orders, or minted. */
  lemma EventsLoseNothing(events: seq<Event>, c: Config, k: AssetKey, m: Conservation.Measure)
    requires ExpectedRun(events, c, true)
    ensures var s, f := RunEvents(events, c), Conservation.Flows(AllSteps(events, c), c, k, m);
      f.acquired ==
        Conservation.Open(s, k, m) + Conservation.CarriedAt(s.carryOvers, k, m) + Conservation.Held(s, k, m) + f.minted
  {
    hide RunEvents, AllSteps, ExpectedRun, ProperRun, Run, Conservation.TidyRun, Conservation.Flows, Conservation.Open,
      Conservation.CarriedAt, Conservation.Held;
    EventsAreProper(events, c, true);
    ProperIsTidy(AllSteps(events, c), c);
    Conservation.NothingIsLost(AllSteps(events, c), c, k, m);
  }

  /** In any run of expected events whose rounds succeed the total volley is that of the batches that are not cancelled,
      and nothing when the batch manager is idle. */
  lemma EventsKeepVolley(events: seq<Event>, c: Config)
    requires ExpectedRun(events, c, true)
    ensures var s := RunEvents(events, c);
      && s.totalVolley == SumOver(s.batches.Keys - Conservation.CancelledIn(s), BatchVolley.Volleys(s.batches))
      && (s.batches == map[] ==> s.totalVolley == 0.0)
  {
    hide RunEvents, AllSteps, ExpectedRun, ProperRun, Run, Finished, SumOver;
    EventsAreProper(events, c, true);
    ProperIsTidy(AllSteps(events, c), c);
    BatchVolley.TotalVolleyIsLive(AllSteps(events, c), c);
    var s := RunEvents(events, c);
    assert BatchVolley.LiveBatches(s, Finished(AllSteps(events, c))) == s.batches.Keys - Conservation.CancelledIn(s);
  }
}
