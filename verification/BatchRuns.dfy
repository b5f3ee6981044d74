/** Runs of the batch manager, one small step at a time and in any order, together with what the rest of the solver
    does to the orders in between. */
module BatchRuns {
  import opened Common
  import opened BatchLots
  import opened BatchFillSpec
  import opened BatchManagerSpec

  datatype Step =
    | Register(id: string, e: EngagedOrders)
    | Confirm(id: string, confirmations: map<string, Confirmation>, now: int)
    | TakeReady(n: nat)
    | Send(id: string, now: int)
    | Execute(id: string, k: AssetKey, x: Execution, now: int)
    | FillNext(id: string, i: nat)
    | CancelOrder(id: string, k: AssetKey, quantity: real, cancelled: bool)
    | Finish(id: string, now: int)
    | Clean
    | Arrive(key: string, o: SolverOrder)
    | Change(key: string, o: SolverOrder)
    | Drain(key: string)

  ghost function Apply(s: State, step: Step, c: Config): State {
    match step
    case Register(id, e) => NewEngagement(s, id, e).0
    case Confirm(id, confirmations, now) => if id in s.engagements then EngageOrders(s, id, confirmations, now) else s
    case TakeReady(n) => if n <= |s.readyBatches| then s.(readyBatches := s.readyBatches[n..]) else s
    case Send(id, now) => SendBatch(s, id, now, c).0
    case Execute(id, k, x, now) =>
      if id in s.batches then s.(batches := s.batches[id := UpdateBatch(s.batches[id], k, x, now).batch]) else s
    case FillNext(id, i) => if CanFill(s, id, i) then AfterFill(s, id, i, FillOf(s, id, i, c.th)) else s
    case CancelOrder(id, k, quantity, cancelled) =>
      if id in s.batches && k in s.batches[id].positions
      then s.(batches := s.batches[id := CancelAsset(s.batches[id], k, quantity, cancelled)]) else s
    case Finish(id, now) => if id in s.batches then Complete(s, id, now, c).0 else s
    case Clean => Cleanup(s)
    case Arrive(key, o) => if key in s.orders then s else s.(orders := s.orders[key := o.(lots := [])])
    case Change(key, o) =>
      if key !in s.orders then s
      else s.(orders := s.orders[key := o.(side := s.orders[key].side, lots := s.orders[key].lots)])
    case Drain(key) =>
      if key !in s.orders then s else s.(orders := s.orders[key := s.orders[key].(lots := [])])
  }

  ghost function Run(steps: seq<Step>, c: Config): State
    decreases |steps|
  {
    if steps == [] then NOTHING else Apply(Run(steps[..|steps| - 1], c), steps[|steps| - 1], c)
  }

  function NowFinished(finished: set<string>, step: Step): set<string> {
    match step
    case Finish(id, _) => finished + {id}
    case Send(id, _) => finished - {id}
    case _ => finished
  }

  /** The batches that were completed since they were sent. */
  function Finished(steps: seq<Step>): set<string>
    decreases |steps|
  {
    if steps == [] then {} else NowFinished(Finished(steps[..|steps| - 1]), steps[|steps| - 1])
  }

  // What the order manager's answers change

  ghost predicate SameEngagements(es: seq<Engagement>, es': seq<Engagement>) {
    |es'| == |es| && forall i :: 0 <= i < |es| ==> es'[i] == es[i].(collateral := es'[i].collateral)
  }

  predicate AnsweredStatus(status: Status, status': Status) {
    status' == status || (status.Ready? && status'.Engaged?) || status'.InvalidOrder?
  }

  ghost predicate AnsweredOrder(o: SolverOrder, o': SolverOrder) {
    && o' == o.(engaged := o'.engaged, remaining := o'.remaining, carried := o'.carried, timestamp := o'.timestamp,
                status := o'.status)
    && AnsweredStatus(o.status, o'.status)
  }

  ghost predicate Answered(s: State, s': State, id: string) {
    && s' == s.(orders := s'.orders, engagements := s'.engagements)
    && s'.engagements.Keys == s.engagements.Keys
    && (forall j :: j in s.engagements && j != id ==> s'.engagements[j] == s.engagements[j])
    && (id in s.engagements ==> SameEngagements(s.engagements[id].orders, s'.engagements[id].orders))
    && s'.orders.Keys == s.orders.Keys
    && (forall key :: key in s.orders ==> AnsweredOrder(s.orders[key], s'.orders[key]))
  }

  lemma AnsweredTwice(s: State, s1: State, s2: State, id: string)
    requires Answered(s, s1, id) && Answered(s1, s2, id)
    ensures Answered(s, s2, id)
  {
    forall key | key in s.orders ensures AnsweredOrder(s.orders[key], s2.orders[key]) {
      assert AnsweredOrder(s.orders[key], s1.orders[key]);
    }
  }

  /** Answers change the collateral and status of orders, and nothing of what the batches hold. */
  lemma {:induction false} AnswersOnly(s: State, id: string, i: nat, confirmations: map<string, Confirmation>, now: int)
    ensures Answered(s, EngageFrom(s, id, i, confirmations, now), id)
    decreases if id in s.engagements then |s.engagements[id].orders| - i else 0
  {
    if id in s.engagements && i < |s.engagements[id].orders| {
      var es := s.engagements[id];
      var e := es.orders[i];
      if e.order !in s.orders {
        AnswersOnly(s, id, i + 1, confirmations, now);
      } else {
        var o := EngageOrder(s.orders[e.order], e.order, confirmations, now);
        var e' := if e.order in confirmations then e.(collateral := o.engaged) else e;
        var s1 := s.(orders := s.orders[e.order := o],
                     engagements := s.engagements[id := es.(orders := es.orders[i := e'])]);
        assert Answered(s, s1, id);
        hide Answered;
        AnswersOnly(s1, id, i + 1, confirmations, now);
        AnsweredTwice(s, s1, EngageFrom(s1, id, i + 1, confirmations, now), id);
      }
    }
  }

  /** Only orders that are engaged or partly mintable go on into another batch. */
  lemma {:induction false} ContinuedContinue(es: seq<Engagement>, orders: map<string, SolverOrder>, key: string)
    ensures key in Continued(es, orders) ==> key in orders && Continues(orders[key])
  {
    if es != [] {
      ContinuedContinue(es[1..], orders, key);
    }
  }

  /** Carrying collateral over changes nothing else of an order, and nothing of the orders that do not go on. */
  lemma {:induction false} CarryAllOnlyCarries(orders: map<string, SolverOrder>, keys: seq<string>)
    ensures var orders' := CarryAll(orders, keys);
      && orders'.Keys == orders.Keys
      && (forall key :: key in orders ==>
            orders'[key] == orders[key].(carried := orders'[key].carried, engaged := orders'[key].engaged))
      && (forall key :: key in orders && key !in keys ==> orders'[key] == orders[key])
  {
    if keys != [] {
      CarryAllOnlyCarries(if keys[0] in orders then orders[keys[0] := Carry(orders[keys[0]])] else orders, keys[1..]);
    }
  }

  predicate DistinctKeys(keys: seq<string>) {
    forall i, j :: 0 <= i < j < |keys| ==> keys[i] != keys[j]
  }

  /** An order that goes on once carries its collateral over once. */
  lemma {:induction false} CarryAllCarriesOnce(orders: map<string, SolverOrder>, keys: seq<string>, key: string)
    requires key in orders && key in keys && DistinctKeys(keys)
    ensures key in CarryAll(orders, keys) && CarryAll(orders, keys)[key] == Carry(orders[key])
  {
    var orders' := if keys[0] in orders then orders[keys[0] := Carry(orders[keys[0]])] else orders;
    if keys[0] == key {
      assert key !in keys[1..];
      CarryAllOnlyCarries(orders', keys[1..]);
    } else {
      CarryAllCarriesOnce(orders', keys[1..], key);
    }
  }

  predicate DistinctOrders(es: seq<Engagement>) {
    forall i, j :: 0 <= i < j < |es| ==> es[i].order != es[j].order
  }

  predicate ListsOrder(es: seq<Engagement>, key: string) {
    exists i :: 0 <= i < |es| && es[i].order == key
  }

  lemma {:induction false} ContinuedOnce(es: seq<Engagement>, orders: map<string, SolverOrder>)
    requires DistinctOrders(es)
    ensures DistinctKeys(Continued(es, orders))
    ensures forall key :: key in Continued(es, orders) ==> ListsOrder(es, key)
  {
    if es != [] {
      ContinuedOnce(es[1..], orders);
      forall key | key in Continued(es[1..], orders) ensures key != es[0].order && ListsOrder(es, key) {
        var i :| 0 <= i < |es[1..]| && es[1..][i].order == key;
        assert es[i + 1].order == key;
      }
      assert ListsOrder(es, es[0].order);
    }
  }

  // What a handler does is a sequence of such steps

  ghost function RunFrom(s: State, steps: seq<Step>, c: Config): State
    decreases |steps|
  {
    if steps == [] then s else RunFrom(Apply(s, steps[0], c), steps[1..], c)
  }

  lemma {:induction false} RunFromAppend(s: State, xs: seq<Step>, ys: seq<Step>, c: Config)
    ensures RunFrom(s, xs + ys, c) == RunFrom(RunFrom(s, xs, c), ys, c)
    decreases |xs|
  {
    if xs == [] {
      assert xs + ys == ys;
    } else {
      assert (xs + ys)[1..] == xs[1..] + ys;
      RunFromAppend(Apply(s, xs[0], c), xs[1..], ys, c);
    }
  }

  /** The steps of filling a batch's orders from the i-th on. */
  ghost function FillSteps(s: State, id: string, i: nat, c: Config): seq<Step>
    decreases if id in s.engagements then |s.engagements[id].orders| - i else 0
  {
    if !CanFill(s, id, i) then []
    else
      var f := FillOf(s, id, i, c.th);
      [FillNext(id, i)] + if f.error.Some? then [] else FillSteps(AfterFill(s, id, i, f), id, i + 1, c)
  }

  lemma {:induction false} FillFromIsSteps(s: State, id: string, i: nat, c: Config)
    ensures RunFrom(s, FillSteps(s, id, i, c), c) == FillFrom(s, id, i, c.th).0
    decreases if id in s.engagements then |s.engagements[id].orders| - i else 0
  {
    if CanFill(s, id, i) {
      var f := FillOf(s, id, i, c.th);
      var s' := AfterFill(s, id, i, f);
      hide FillOf;
      var rest := if f.error.Some? then [] else FillSteps(s', id, i + 1, c);
      assert FillSteps(s, id, i, c) == [FillNext(id, i)] + rest;
      assert ([FillNext(id, i)] + rest)[1..] == rest;
      if f.error.None? {
        FillFromIsSteps(s', id, i + 1, c);
      }
    }
  }

  /** The steps of an execution report. */
  ghost function NewLotSteps(s: State, id: string, k: AssetKey, x: Execution, now: int, c: Config): seq<Step> {
    if id !in s.batches then []
    else
      [Execute(id, k, x, now)]
      + if UpdateBatch(s.batches[id], k, x, now).ok
        then FillSteps(Apply(s, Execute(id, k, x, now), c), id, 0, c)
        else []
  }

  lemma NewLotIsSteps(s: State, id: string, k: AssetKey, x: Execution, now: int, c: Config)
    ensures RunFrom(s, NewLotSteps(s, id, k, x, now, c), c) == HandleNewLot(s, id, k, x, now, c).0
  {
    hide UpdateBatch, FillSteps, FillFrom;
    if id in s.batches {
      var s' := Apply(s, Execute(id, k, x, now), c);
      var rest := if UpdateBatch(s.batches[id], k, x, now).ok then FillSteps(s', id, 0, c) else [];
      assert ([Execute(id, k, x, now)] + rest)[1..] == rest;
      FillFromIsSteps(s', id, 0, c);
    }
  }

  /** The steps of a cancelled asset order. */
  function CancelSteps(s: State, id: string, k: AssetKey, quantity: real, cancelled: bool, now: int): seq<Step> {
    if id !in s.batches || k !in s.batches[id].positions then []
    else
      [CancelOrder(id, k, quantity, cancelled)]
      + if CancelAsset(s.batches[id], k, quantity, cancelled).cancelled then [Finish(id, now)] else []
  }

  lemma CancelIsSteps(s: State, id: string, k: AssetKey, quantity: real, cancelled: bool, now: int, c: Config)
    ensures RunFrom(s, CancelSteps(s, id, k, quantity, cancelled, now), c)
         == HandleCancelOrder(s, id, k, quantity, cancelled, now, c).0
  {
    hide Complete;
    if id in s.batches && k in s.batches[id].positions {
      var s' := Apply(s, CancelOrder(id, k, quantity, cancelled), c);
      var rest := if s'.batches[id].cancelled then [Finish(id, now)] else [];
      assert ([CancelOrder(id, k, quantity, cancelled)] + rest)[1..] == rest;
      if rest != [] {
        assert rest[1..] == [];
        assert RunFrom(s', rest, c) == Apply(s', Finish(id, now), c);
      }
    }
  }

  /** The steps of one round of batch processing. */
  ghost function SendSteps(s: State, ids: seq<string>, now: int, c: Config): seq<Step>
    decreases |ids|
  {
    if ids == [] then []
    else if ids[0] !in s.engagements then SendSteps(s, ids[1..], now, c)
    else [Send(ids[0], now)] + SendSteps(SendBatch(s, ids[0], now, c).0, ids[1..], now, c)
  }

  lemma {:induction false} SendAllIsSteps(s: State, ids: seq<string>, now: int, c: Config)
    ensures RunFrom(s, SendSteps(s, ids, now, c), c) == SendAll(s, ids, now, c).s
    decreases |ids|
  {
    hide SendBatch;
    if ids != [] {
      if ids[0] !in s.engagements {
        SendAllIsSteps(s, ids[1..], now, c);
      } else {
        var s' := SendBatch(s, ids[0], now, c).0;
        SendAllIsSteps(s', ids[1..], now, c);
        assert ([Send(ids[0], now)] + SendSteps(s', ids[1..], now, c))[1..] == SendSteps(s', ids[1..], now, c);
      }
    }
  }

  ghost function FirstFillSteps(s: State, ids: seq<string>, now: int, c: Config): seq<Step>
    decreases |ids|
  {
    if ids == [] then []
    else
      var filled := FillFrom(s, ids[0], 0, c.th);
      var finishes := filled.1.Done? && ids[0] in filled.0.batches && filled.0.batches[ids[0]].cancelled;
      FillSteps(s, ids[0], 0, c) + (if finishes then [Finish(ids[0], now)] else [])
      + FirstFillSteps(FirstFill(s, ids[0], now, c).0, ids[1..], now, c)
  }

  lemma FirstFillIsSteps(s: State, id: string, now: int, c: Config, finishes: bool)
    requires var filled := FillFrom(s, id, 0, c.th);
      finishes == (filled.1.Done? && id in filled.0.batches && filled.0.batches[id].cancelled)
    ensures var last := if finishes then [Finish(id, now)] else [];
      RunFrom(s, FillSteps(s, id, 0, c) + last, c) == FirstFill(s, id, now, c).0
  {
    hide FillFrom, FillSteps, Complete;
    var last := if finishes then [Finish(id, now)] else [];
    FillFromIsSteps(s, id, 0, c);
    RunFromAppend(s, FillSteps(s, id, 0, c), last, c);
    if finishes {
      assert last[1..] == [];
    }
  }

  lemma {:induction false} FirstFillAllIsSteps(s: State, ids: seq<string>, now: int, c: Config)
    ensures RunFrom(s, FirstFillSteps(s, ids, now, c), c) == FirstFillAll(s, ids, now, c).0
    decreases |ids|
  {
    hide FillFrom, FillSteps, FirstFill;
    if ids != [] {
      var id := ids[0];
      var filled := FillFrom(s, id, 0, c.th);
      var finishes := filled.1.Done? && id in filled.0.batches && filled.0.batches[id].cancelled;
      var these := FillSteps(s, id, 0, c) + if finishes then [Finish(id, now)] else [];
      var s' := FirstFill(s, id, now, c).0;
      FirstFillIsSteps(s, id, now, c, finishes);
      FirstFillAllIsSteps(s', ids[1..], now, c);
      RunFromAppend(s, these, FirstFillSteps(s', ids[1..], now, c), c);
    }
  }

  ghost function ProcessSteps(s: State, now: int, c: Config): seq<Step> {
    var n := if |s.readyBatches| < c.maxBatchSize then |s.readyBatches| else c.maxBatchSize;
    var taken := s.(readyBatches := s.readyBatches[n..]);
    var sending := SendAll(taken, s.readyBatches[..n], now, c);
    [TakeReady(n)] + SendSteps(taken, s.readyBatches[..n], now, c) + FirstFillSteps(sending.s, sending.sent, now, c)
    + if ProcessBatches(s, now, c).1.Done? then [Clean] else []
  }

  /** One round of batch processing is a sequence of steps. */
  lemma ProcessIsSteps(s: State, now: int, c: Config)
    ensures RunFrom(s, ProcessSteps(s, now, c), c) == ProcessBatches(s, now, c).0
  {
    hide SendAll, SendSteps, FirstFillAll, FirstFillSteps, Cleanup;
    var n := if |s.readyBatches| < c.maxBatchSize then |s.readyBatches| else c.maxBatchSize;
    var ids := s.readyBatches[..n];
    var taken := Apply(s, TakeReady(n), c);
    var sending := SendAll(taken, ids, now, c);
    var first, second := [TakeReady(n)], SendSteps(taken, ids, now, c);
    var third := FirstFillSteps(sending.s, sending.sent, now, c);
    var last := if ProcessBatches(s, now, c).1.Done? then [Clean] else [];
    assert first[1..] == [];
    assert last != [] ==> last[1..] == [];
    SendAllIsSteps(taken, ids, now, c);
    FirstFillAllIsSteps(sending.s, sending.sent, now, c);
    RunFromAppend(s, first, second, c);
    RunFromAppend(s, first + second, third, c);
    RunFromAppend(s, first + second + third, last, c);
  }
}
