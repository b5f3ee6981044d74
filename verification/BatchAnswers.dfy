/** What the events of the batch manager achieve: fills until nothing more can be filled, answers taken over by every
    order of a batch, completion by the last cancel, and rounds that send every batch they take. */
module BatchAnswers {
  import opened Common
  import opened BatchLots
  import opened BatchFillSpec
  import opened BatchManagerSpec
  import opened BatchRuns
  import opened BatchFillAnswers
  import BatchFigures
  import BatchRates

  /** An engagement is kept as it was when it was registered first; a second one under the same ID is refused. */
  lemma FirstEngagementStays(s: State, id: string, e: EngagedOrders)
    ensures var (s', answer) := NewEngagement(s, id, e);
      && (answer.Failed? <==> id in s.engagements)
      && s' == s.(engagements := s'.engagements) && s.engagements.Keys + {id} == s'.engagements.Keys
      && (forall j :: j in s.engagements ==> s'.engagements[j] == s.engagements[j])
      && (answer.Done? ==> s'.engagements[id] == e)
  {
  }

  // What a fill tells

  /** The message says by how much the order and its engagement advanced, and how far the order is now. */
  predicate Advanced(o: SolverOrder, o': SolverOrder, e: Engagement, e': Engagement, r: FillRequest) {
    && r.order == e.order
    && r.spent == o'.spent - o.spent && r.quantity == o'.filled - o.filled == e'.filled - e.filled
    && r.status == o'.status
    && r.rate * (o'.spent + (o'.remaining + o'.engaged)) == o'.spent
  }

  lemma RequestsAdvance(positions: Positions, e: Engagement, o: SolverOrder, now: int, th: Thresholds)
    ensures var f := FillIndexOrder(positions, e, o, now, th);
      && (f.request.None? ==> !f.mintable && (f.error.None? ==> f.order == o && f.engagement == e))
      && (f.request.Some? ==>
            && Advanced(o, f.order, e, f.engagement, f.request.value)
            && (f.mintable <==> o.status.Engaged? && th.mint < f.request.value.rate))
  {
    var k := UnfilledExactly(positions, e, o, now, th);
    StatusExactly(positions, e, o, now, th);
    if FillIndexOrder(positions, e, o, now, th).request.Some? {
      hide BasketRate, AllocateBasket, FilledAt, Promoted;
      var o' := FillIndexOrder(positions, e, o, now, th).order;
      DivisionBack(o'.spent, TotalCollateral(o'));
    }
  }

  /** Every fill that advances an order is told the order manager, and nothing else is. The order then waits to be
      minted if it was only engaged and this fill took it past the mint threshold. */
  lemma FillTells(s: State, id: string, i: nat, th: Thresholds)
    requires CanFill(s, id, i)
    ensures var f := FillOf(s, id, i, th); var s' := AfterFill(s, id, i, f); var e := s.engagements[id].orders[i];
      && CanFill(s', id, i) && s'.carryOvers == s.carryOvers && s'.totalVolley == s.totalVolley
      && (forall key :: key in s.orders && key != e.order ==> key in s'.orders && s'.orders[key] == s.orders[key])
      && (|s'.outbox| == |s.outbox| ==>
            && s'.outbox == s.outbox && s'.readyMints == s.readyMints
            && (f.error.None? ==> s'.orders[e.order] == s.orders[e.order] && s'.engagements[id].orders[i] == e))
      && (|s'.outbox| != |s.outbox| ==> exists r :: Told(s, s', e, s'.engagements[id].orders[i], r, th.mint))
  {
    var e := s.engagements[id].orders[i];
    RequestsAdvance(s.batches[id].positions, e, s.orders[e.order], s.batches[id].timestamp, th);
    FilledKeeps(s.batches[id].positions, e, s.orders[e.order], s.batches[id].timestamp, th);
    hide FillIndexOrder, Advanced;
    var f := FillOf(s, id, i, th);
    if f.request.Some? {
      assert Told(s, AfterFill(s, id, i, f), e, f.engagement, f.request.value, th.mint);
    }
  }

  /** The message was added, the order advanced by it, and waits if it became mintable. */
  predicate Told(s: State, s': State, e: Engagement, e': Engagement, r: FillRequest, mint: real) {
    && e.order in s.orders && e.order in s'.orders
    && s'.outbox == s.outbox + [Message.Fill(r)]
    && Advanced(s.orders[e.order], s'.orders[e.order], e, e', r)
    && s'.readyMints == s.readyMints + if s.orders[e.order].status.Engaged? && mint < r.rate then {e.order} else {}
  }

  // After a fill nothing is left to fill

  /** The order is fully mintable, or nothing worth filling is allowed beyond what it has. */
  ghost predicate Settled(s: State, id: string, i: nat, t: real)
    requires CanFill(s, id, i)
  {
    var e := s.engagements[id].orders[i];
    var o := s.orders[e.order];
    || o.status.FullyMintable?
    || forall filled :: Allows(s.batches[id].positions, o.side, e, filled) ==>
         filled <= e.filled || filled - e.filled < t
  }

  lemma FillSettles(s: State, id: string, i: nat, th: Thresholds)
    requires CanFill(s, id, i) && Positive(s.engagements[id].orders[i])
    requires FillOf(s, id, i, th).error.None?
    ensures var s' := AfterFill(s, id, i, FillOf(s, id, i, th)); CanFill(s', id, i) && Settled(s', id, i, th.zero)
  {
    var e := s.engagements[id].orders[i];
    var o := s.orders[e.order];
    var now := s.batches[id].timestamp;
    var positions := s.batches[id].positions;
    var f := FillIndexOrder(positions, e, o, now, th);
    BatchFigures.FillKeepsBooks(positions, e, o, now, th);
    var k := UnfilledExactly(positions, e, o, now, th);
    FilledKeeps(positions, e, o, now, th);
    forall filled | Allows(f.positions, f.order.side, f.engagement, filled) && !f.order.status.FullyMintable?
      ensures filled <= f.engagement.filled || filled - f.engagement.filled < th.zero
    {
      SameAllows(positions, f.positions, o.side, e, f.engagement, filled);
      FillIsGreatest(positions, e, o, now, th, filled);
    }
  }

  lemma FilledKeeps(positions: Positions, e: Engagement, o: SolverOrder, now: int, th: Thresholds)
    ensures var f := FillIndexOrder(positions, e, o, now, th);
      && f.engagement == e.(filled := f.engagement.filled) && f.order.side == o.side
      && (o.status.FullyMintable? ==> f.order.status.FullyMintable?)
  {
    hide BasketRate, AllocateBasket, FilledAt;
  }

  lemma SameAllows(
      positions: Positions, positions': Positions, side: Side, e: Engagement, e': Engagement, filled: real)
    requires BatchFigures.SamePositionBooks(positions, positions') && e' == e.(filled := e'.filled)
    ensures Allows(positions', side, e', filled) <==> Allows(positions, side, e, filled)
  {
    forall a | a in e.basket
      ensures AllowsAsset(positions', side, e', a, filled) <==> AllowsAsset(positions, side, e, a, filled)
    {
      var k := AssetKey(a.symbol, side);
      if k in positions {
        assert BatchFigures.SameBooks(positions[k], positions'[k]);
      }
    }
  }

  lemma StaysSettled(s: State, id: string, i: nat, j: nat, th: Thresholds)
    requires CanFill(s, id, i) && CanFill(s, id, j) && j != i && Settled(s, id, j, th.zero)
    requires s.engagements[id].orders[i].order != s.engagements[id].orders[j].order
    ensures var s' := AfterFill(s, id, i, FillOf(s, id, i, th)); CanFill(s', id, j) && Settled(s', id, j, th.zero)
  {
    hide FillIndexOrder, Allows;
    var e, e' := s.engagements[id].orders[i], s.engagements[id].orders[j];
    var positions := s.batches[id].positions;
    BatchFigures.FillKeepsBooks(positions, e, s.orders[e.order], s.batches[id].timestamp, th);
    var positions' := FillOf(s, id, i, th).positions;
    var side := s.orders[e'.order].side;
    forall filled ensures Allows(positions', side, e', filled) <==> Allows(positions, side, e', filled) {
      SameAllows(positions, positions', side, e', e', filled);
    }
  }

  /** Every order of the batch is known, and listed once. */
  ghost predicate CanFillAll(s: State, id: string) {
    && id in s.batches && id in s.engagements
    && DistinctOrders(s.engagements[id].orders)
    && forall i: nat :: i < |s.engagements[id].orders| ==>
         CanFill(s, id, i) && Positive(s.engagements[id].orders[i])
  }

  lemma FillKeepsFillable(s: State, id: string, i: nat, th: Thresholds)
    requires CanFillAll(s, id) && CanFill(s, id, i)
    ensures var s' := AfterFill(s, id, i, FillOf(s, id, i, th));
      CanFillAll(s', id) && |s'.engagements[id].orders| == |s.engagements[id].orders|
  {
    var e := s.engagements[id].orders[i];
    FilledKeeps(s.batches[id].positions, e, s.orders[e.order], s.batches[id].timestamp, th);
    hide FillIndexOrder;
    var s' := AfterFill(s, id, i, FillOf(s, id, i, th));
    forall j: nat | j < |s'.engagements[id].orders|
      ensures CanFill(s', id, j) && Positive(s'.engagements[id].orders[j])
    {
      assert CanFill(s, id, j) && Positive(s.engagements[id].orders[j]);
    }
  }

  lemma {:induction false} FillingSettles(s: State, id: string, i: nat, th: Thresholds)
    requires CanFillAll(s, id) && i <= |s.engagements[id].orders|
    requires forall j: nat :: j < i ==> Settled(s, id, j, th.zero)
    requires FillFrom(s, id, i, th).1.Done?
    ensures var s' := FillFrom(s, id, i, th).0;
      CanFillAll(s', id) && forall j: nat :: j < |s'.engagements[id].orders| ==> Settled(s', id, j, th.zero)
    decreases |s.engagements[id].orders| - i
  {
    if i < |s.engagements[id].orders| {
      hide FillOf, AfterFill, Settled;
      assert CanFill(s, id, i) && Positive(s.engagements[id].orders[i]);
      var s' := AfterFill(s, id, i, FillOf(s, id, i, th));
      FillSettles(s, id, i, th);
      FillKeepsFillable(s, id, i, th);
      forall j: nat | j < i ensures Settled(s', id, j, th.zero) {
        assert CanFill(s, id, j);
        StaysSettled(s, id, i, j, th);
      }
      FillingSettles(s', id, i + 1, th);
    }
  }

  /** After an execution that goes through, no order of the batch could be filled any further. */
  lemma NothingLeftToFill(s: State, id: string, k: AssetKey, x: Execution, now: int, c: Config)
    requires CanFillAll(s, id) && HandleNewLot(s, id, k, x, now, c).1.Done?
    ensures var s' := HandleNewLot(s, id, k, x, now, c).0;
      CanFillAll(s', id) && forall i: nat :: i < |s'.engagements[id].orders| ==> Settled(s', id, i, c.th.zero)
  {
    hide UpdateBatch, FillFrom, Settled;
    var s1 := s.(batches := s.batches[id := UpdateBatch(s.batches[id], k, x, now).batch]);
    forall i: nat | i < |s1.engagements[id].orders|
      ensures CanFill(s1, id, i) && Positive(s1.engagements[id].orders[i])
    {
      assert CanFill(s, id, i);
    }
    FillingSettles(s1, id, 0, c.th);
  }

  // The order manager's answer

  /** An answered order has what was engaged now and what was carried over; one left out of the answer is invalid. */
  predicate TakesAnswer(
      o: SolverOrder, o': SolverOrder, key: string, confirmations: map<string, Confirmation>, now: int)
  {
    if key !in confirmations then o' == o.(status := InvalidOrder)
    else
      && o' == o.(engaged := o'.engaged, remaining := confirmations[key].remaining, carried := 0.0, timestamp := now,
                  status := o'.status)
      && o'.engaged - o.carried == confirmations[key].engaged
      && (o.status.Ready? ==> o'.status.Engaged?) && (!o.status.Ready? ==> o'.status == o.status)
  }

  lemma {:induction false} EveryAnswerTaken(
      s: State, id: string, i: nat, confirmations: map<string, Confirmation>, now: int, j: nat)
    requires id in s.engagements && DistinctOrders(s.engagements[id].orders)
    requires i <= j < |s.engagements[id].orders| && s.engagements[id].orders[j].order in s.orders
    ensures var s' := EngageFrom(s, id, i, confirmations, now); var e := s.engagements[id].orders[j];
      && e.order in s'.orders && TakesAnswer(s.orders[e.order], s'.orders[e.order], e.order, confirmations, now)
      && id in s'.engagements && j < |s'.engagements[id].orders|
      && s'.engagements[id].orders[j]
           == if e.order in confirmations then e.(collateral := s'.orders[e.order].engaged) else e
    decreases |s.engagements[id].orders| - i
  {
    hide TakesAnswer;
    var es := s.engagements[id];
    var e := es.orders[i];
    var o := if e.order in s.orders then EngageOrder(s.orders[e.order], e.order, confirmations, now)
             else s.orders[es.orders[j].order];
    var e' := if e.order in s.orders && e.order in confirmations then e.(collateral := o.engaged) else e;
    var s1 := if e.order !in s.orders then s
              else s.(orders := s.orders[e.order := o],
                      engagements := s.engagements[id := es.(orders := es.orders[i := e'])]);
    if i < j {
      EveryAnswerTaken(s1, id, i + 1, confirmations, now, j);
    } else {
      OneAnswerTaken(s.orders[e.order], e.order, confirmations, now);
      LaterAnswersElsewhere(s1, id, i + 1, confirmations, now, i);
    }
  }

  lemma OneAnswerTaken(o: SolverOrder, key: string, confirmations: map<string, Confirmation>, now: int)
    ensures TakesAnswer(o, EngageOrder(o, key, confirmations, now), key, confirmations, now)
  {
  }

  lemma {:induction false} LaterAnswersElsewhere(
      s: State, id: string, i: nat, confirmations: map<string, Confirmation>, now: int, j: nat)
    requires id in s.engagements && DistinctOrders(s.engagements[id].orders)
    requires j < i <= |s.engagements[id].orders| && s.engagements[id].orders[j].order in s.orders
    ensures var s' := EngageFrom(s, id, i, confirmations, now); var e := s.engagements[id].orders[j];
      && e.order in s'.orders && s'.orders[e.order] == s.orders[e.order]
      && id in s'.engagements && j < |s'.engagements[id].orders| && s'.engagements[id].orders[j] == e
    decreases |s.engagements[id].orders| - i
  {
    if i < |s.engagements[id].orders| {
      hide EngageOrder;
      var es := s.engagements[id];
      var e := es.orders[i];
      if e.order in s.orders {
        var o := EngageOrder(s.orders[e.order], e.order, confirmations, now);
        var e' := if e.order in confirmations then e.(collateral := o.engaged) else e;
        LaterAnswersElsewhere(s.(orders := s.orders[e.order := o],
                                 engagements := s.engagements[id := es.(orders := es.orders[i := e'])]),
                              id, i + 1, confirmations, now, j);
      } else {
        LaterAnswersElsewhere(s, id, i + 1, confirmations, now, j);
      }
    }
  }

  /** Once the order manager answered, every order of the batch took its answer, no other order changed, and the batch
      is the last of those to be sent. */
  lemma AnswersTaken(s: State, id: string, confirmations: map<string, Confirmation>, now: int, key: string)
    requires id in s.engagements && DistinctOrders(s.engagements[id].orders) && key in s.orders
    ensures var s' := EngageOrders(s, id, confirmations, now); var es := s.engagements[id].orders;
      && s'.readyBatches == s.readyBatches + [id]
      && key in s'.orders && id in s'.engagements && |s'.engagements[id].orders| == |es|
      && (!ListsOrder(es, key) ==> s'.orders[key] == s.orders[key])
      && (ListsOrder(es, key) ==> TakesAnswer(s.orders[key], s'.orders[key], key, confirmations, now))
      && forall j :: 0 <= j < |es| && es[j].order == key ==>
           s'.engagements[id].orders[j]
             == if key in confirmations then es[j].(collateral := s'.orders[key].engaged) else es[j]
  {
    hide TakesAnswer, EngageFrom;
    var es := s.engagements[id].orders;
    AnswersOnly(s, id, 0, confirmations, now);
    assert es[0..] == es;
    BatchRates.EngageAnswers(s, id, 0, confirmations, now, key);
    forall j | 0 <= j < |es| && es[j].order == key
      ensures TakesAnswer(s.orders[key], EngageOrders(s, id, confirmations, now).orders[key], key, confirmations, now)
      ensures EngageOrders(s, id, confirmations, now).engagements[id].orders[j] ==
        if key in confirmations
        then es[j].(collateral := EngageOrders(s, id, confirmations, now).orders[key].engaged) else es[j]
    {
      EveryAnswerTaken(s, id, 0, confirmations, now, j);
    }
  }

  // Cancelling

  /** A cancel is noted on its position. The batch completes with the cancel after which every position is cancelled,
      and with each one after that. */
  lemma CancelCompletes(s: State, id: string, k: AssetKey, quantity: real, cancelled: bool, now: int, c: Config)
    requires id in s.batches && k in s.batches[id].positions
    ensures var r := HandleCancelOrder(s, id, k, quantity, cancelled, now, c);
      var b := s.batches[id];
      var positions := b.positions[k := b.positions[k].(cancelled := cancelled, quantityCancelled := quantity)];
      var whole := b.cancelled || (cancelled && forall j :: j in b.positions && j != k ==> b.positions[j].cancelled);
      var s1 := s.(batches := s.batches[id := b.(positions := positions, cancelled := whole)]);
      r == if whole then Complete(s1, id, now, c) else (s1, Done)
  {
    hide Complete;
    var b := s.batches[id];
    var positions := CancelAsset(b, k, quantity, cancelled).positions;
    assert k in positions;
    assert forall j :: j in b.positions && j != k ==> j in positions && positions[j] == b.positions[j];
  }

  // Rounds

  /** The batches that are sent in one round: of those taken, the ones that are engaged, in turn. */
  function Engageable(s: State, ids: seq<string>): seq<string> {
    if ids == [] then []
    else (if ids[0] in s.engagements then [ids[0]] else []) + Engageable(s, ids[1..])
  }

  /** A batch is sent for an engagement with orders and prices, unless one under the same ID is there. */
  ghost predicate Sendable(s: State, id: string) {
    id in s.engagements ==> s.engagements[id].orders != [] && Priced(s.engagements[id]) && id !in s.batches
  }

  ghost predicate AllSendable(s: State, ids: seq<string>) {
    && (forall i :: 0 <= i < |ids| ==> Sendable(s, ids[i]))
    && (forall i, j :: 0 <= i < j < |ids| && ids[j] in s.engagements ==> ids[i] != ids[j])
  }

  lemma SendSucceeds(s: State, id: string, now: int, c: Config)
    requires id in s.engagements
    ensures SendBatch(s, id, now, c).1.Done? <==> Sendable(s, id)
    ensures SendBatch(s, id, now, c).1.Done? ==> SendBatch(s, id, now, c).0.batches.Keys == s.batches.Keys + {id}
  {
    hide NewBatch, NewPositions, ToSend, Priced;
  }

  lemma RestSendable(s: State, s1: State, ids: seq<string>)
    requires ids != [] && s1.engagements == s.engagements
    requires if ids[0] in s.engagements then s1.batches.Keys == s.batches.Keys + {ids[0]} else s1 == s
    ensures AllSendable(s, ids) <==> Sendable(s, ids[0]) && AllSendable(s1, ids[1..])
  {
    hide Priced;
    if AllSendable(s, ids) {
      forall i | 0 <= i < |ids[1..]| ensures Sendable(s1, ids[1..][i]) {
        assert Sendable(s, ids[i + 1]);
      }
    }
    if Sendable(s, ids[0]) && AllSendable(s1, ids[1..]) {
      forall i | 0 <= i < |ids| ensures Sendable(s, ids[i]) {
        if i > 0 { assert Sendable(s1, ids[1..][i - 1]); }
      }
      forall i, j | 0 <= i < j < |ids| && ids[j] in s.engagements ensures ids[i] != ids[j] {
        assert Sendable(s1, ids[1..][j - 1]);
        if i > 0 { assert ids[1..][i - 1] != ids[1..][j - 1]; }
      }
    }
  }

  /** Sending succeeds exactly when every engaged batch can be sent, and then all of them are. */
  lemma {:induction false} SendingTakes(s: State, ids: seq<string>, now: int, c: Config)
    ensures var r := SendAll(s, ids, now, c);
      && r.s.engagements == s.engagements && r.s.readyBatches == s.readyBatches
      && (r.ok <==> AllSendable(s, ids))
      && (r.ok ==> r.sent == Engageable(s, ids))
    decreases |ids|
  {
    if ids != [] {
      hide SendBatch, Sendable, AllSendable;
      if ids[0] in s.engagements {
        var s1 := SendBatch(s, ids[0], now, c).0;
        SendKeepsEngagements(s, ids[0], now, c);
        SendSucceeds(s, ids[0], now, c);
        SendingTakes(s1, ids[1..], now, c);
        SameEngageable(s, s1, ids[1..]);
        if Sendable(s, ids[0]) {
          RestSendable(s, s1, ids);
        } else if AllSendable(s, ids) {
          FirstSendable(s, ids);
        }
      } else {
        SendingTakes(s, ids[1..], now, c);
        RestSendable(s, s, ids);
        NotEngaged(s, ids[0]);
        assert [] + Engageable(s, ids[1..]) == Engageable(s, ids[1..]);
      }
    }
  }

  lemma FirstSendable(s: State, ids: seq<string>)
    requires ids != [] && AllSendable(s, ids)
    ensures Sendable(s, ids[0])
  {
  }

  lemma NotEngaged(s: State, id: string)
    requires id !in s.engagements
    ensures Sendable(s, id)
  {
  }

  lemma SendKeepsEngagements(s: State, id: string, now: int, c: Config)
    ensures var s' := SendBatch(s, id, now, c).0; s'.engagements == s.engagements && s'.readyBatches == s.readyBatches
  {
    hide NewBatch, NewPositions, ToSend, Priced;
  }

  lemma {:induction false} SameEngageable(s: State, s': State, ids: seq<string>)
    requires s'.engagements == s.engagements
    ensures Engageable(s', ids) == Engageable(s, ids)
  {
    if ids != [] {
      SameEngageable(s, s', ids[1..]);
    }
  }

  lemma {:induction false} FillingKeepsReady(s: State, id: string, i: nat, th: Thresholds)
    ensures FillFrom(s, id, i, th).0.readyBatches == s.readyBatches
    decreases if id in s.engagements then |s.engagements[id].orders| - i else 0
  {
    if CanFill(s, id, i) {
      hide FillOf;
      FillingKeepsReady(AfterFill(s, id, i, FillOf(s, id, i, th)), id, i + 1, th);
    }
  }

  lemma {:induction false} FirstFillsKeepReady(s: State, ids: seq<string>, now: int, c: Config)
    ensures FirstFillAll(s, ids, now, c).0.readyBatches == s.readyBatches
    decreases |ids|
  {
    if ids != [] {
      hide FillFrom;
      FillingKeepsReady(s, ids[0], 0, c.th);
      FirstFillsKeepReady(FirstFill(s, ids[0], now, c).0, ids[1..], now, c);
    }
  }

  /** The first fill of batch i, after those of the batches before it, succeeds. */
  predicate FirstFillSucceeds(s: State, ids: seq<string>, i: nat, now: int, c: Config)
    requires i < |ids|
  {
    FirstFill(FirstFillAll(s, ids[..i], now, c).0, ids[i], now, c).1.Done?
  }

  lemma LaterFirstFill(s: State, ids: seq<string>, i: nat, now: int, c: Config)
    requires 0 < i < |ids|
    ensures FirstFillSucceeds(s, ids, i, now, c)
       <==> FirstFillSucceeds(FirstFill(s, ids[0], now, c).0, ids[1..], i - 1, now, c)
  {
    hide FirstFill;
    assert ids[..i][1..] == ids[1..][..i - 1];
  }

  /** A failing first fill does not keep the other batches from theirs, but the round from succeeding. */
  lemma {:induction false} FirstFillsSucceed(s: State, ids: seq<string>, now: int, c: Config)
    ensures FirstFillAll(s, ids, now, c).1.Done? <==>
      forall i: nat :: i < |ids| ==> FirstFillSucceeds(s, ids, i, now, c)
    decreases |ids|
  {
    if ids != [] {
      var s1 := FirstFill(s, ids[0], now, c).0;
      assert FirstFillSucceeds(s, ids, 0, now, c) <==> FirstFill(s, ids[0], now, c).1.Done? by {
        assert ids[..0] == [];
      }
      hide FirstFill, FirstFillSucceeds;
      FirstFillsSucceed(s1, ids[1..], now, c);
      forall i: nat | 0 < i < |ids|
        ensures FirstFillSucceeds(s, ids, i, now, c) <==> FirstFillSucceeds(s1, ids[1..], i - 1, now, c)
      {
        LaterFirstFill(s, ids, i, now, c);
      }
      if forall i: nat :: i < |ids| ==> FirstFillSucceeds(s, ids, i, now, c) {
        forall i: nat | i < |ids[1..]| ensures FirstFillSucceeds(s1, ids[1..], i, now, c) {
          assert FirstFillSucceeds(s, ids, i + 1, now, c);
        }
      }
    }
  }

  /** A round takes the oldest ready batches, as many as it may. It succeeds exactly when all that are engaged can be
      sent and their first fills succeed, and only then removes batches: the cancelled ones, with their engagements. */
  lemma RoundTakes(s: State, now: int, c: Config)
    ensures var r := ProcessBatches(s, now, c); var n := |s.readyBatches| - |r.0.readyBatches|;
      && 0 <= n <= c.maxBatchSize && (n < c.maxBatchSize ==> n == |s.readyBatches|)
      && r.0.readyBatches == s.readyBatches[n..]
      && var taken := s.(readyBatches := s.readyBatches[n..]);
         var sending := SendAll(taken, s.readyBatches[..n], now, c);
         && (r.1.Done? <==>
               AllSendable(s, s.readyBatches[..n]) && FirstFillAll(sending.s, sending.sent, now, c).1.Done?)
         && (r.1.Done? ==> sending.sent == Engageable(s, s.readyBatches[..n]))
         && (r.1.Done? ==>
               var s' := FirstFillAll(sending.s, sending.sent, now, c).0;
               && (forall id :: id in r.0.batches <==> id in s'.batches && !s'.batches[id].cancelled)
               && (forall id :: id in r.0.batches ==> r.0.batches[id] == s'.batches[id])
               && (forall id :: id in r.0.engagements <==>
                     id in s'.engagements && !(id in s'.batches && s'.batches[id].cancelled))
               && (forall id :: id in r.0.engagements ==> r.0.engagements[id] == s'.engagements[id]))
  {
    hide SendAll, FirstFillAll;
    var n := if |s.readyBatches| < c.maxBatchSize then |s.readyBatches| else c.maxBatchSize;
    var taken := s.(readyBatches := s.readyBatches[n..]);
    var ids := s.readyBatches[..n];
    SendingTakes(taken, ids, now, c);
    SameEngageable(s, taken, ids);
    var sending := SendAll(taken, ids, now, c);
    FirstFillsKeepReady(sending.s, sending.sent, now, c);
  }
}
