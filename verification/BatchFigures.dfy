/** What the figures of a batch add up to over any run: the executions that were booked since it was sent. */
module BatchFigures {
  import opened Common
  import opened BatchLots
  import opened BatchFillSpec
  import opened BatchManagerSpec
  import opened BatchRuns
  import BatchVolley

  datatype Booking = Booking(k: AssetKey, x: Execution, now: int)

  /** An execution is booked when its asset was ordered and the batch has a volley. */
  predicate Books(b: Batch, k: AssetKey) {
    k in b.positions && b.positions[k].orderQuantity != 0.0 && b.volleySize != 0.0
  }

  ghost function Booked(steps: seq<Step>, c: Config, id: string): seq<Booking>
    decreases |steps|
  {
    if steps == [] then []
    else
      var before := steps[..|steps| - 1];
      match steps[|steps| - 1]
      case Send(j, _) => if j == id then [] else Booked(before, c, id)
      case Execute(j, k, x, now) =>
        var s := Run(before, c);
        var books := j == id && id in s.batches && Books(s.batches[id], k);
        Booked(before, c, id) + if books then [Booking(k, x, now)] else []
      case _ => Booked(before, c, id)
  }

  /** What a position received: what was carried in, and every execution of its asset. */
  ghost function Received(steps: seq<Step>, c: Config, id: string, k: AssetKey): real
    decreases |steps|
  {
    if steps == [] then 0.0
    else
      var before := steps[..|steps| - 1];
      var s := Run(before, c);
      match steps[|steps| - 1]
      case Send(j, _) =>
        if j != id then Received(before, c, id, k) else if k in s.carryOvers then s.carryOvers[k].quantity else 0.0
      case Execute(j, k', x, _) => Received(before, c, id, k) + if j == id && k' == k then x.quantity else 0.0
      case _ => Received(before, c, id, k)
  }

  /** When the batch was sent. */
  ghost function SentAt(steps: seq<Step>, id: string): int
    decreases |steps|
  {
    if steps == [] then 0
    else
      match steps[|steps| - 1]
      case Send(j, now) => if j == id then now else SentAt(steps[..|steps| - 1], id)
      case _ => SentAt(steps[..|steps| - 1], id)
  }

  function ValueBooked(y: Booking): real { y.x.quantity * y.x.price }

  function FeeBooked(y: Booking): real { y.x.fee }

  function ValueAt(k: AssetKey): Booking -> real { (y: Booking) => if y.k == k then ValueBooked(y) else 0.0 }

  function FeeAt(k: AssetKey): Booking -> real { (y: Booking) => if y.k == k then FeeBooked(y) else 0.0 }

  ghost predicate AddsUp(p: Position, k: AssetKey, booked: seq<Booking>, received: real) {
    && p.realizedValue == SumBy(booked, ValueAt(k)) && p.fee == SumBy(booked, FeeAt(k)) && p.quantity == received
  }

  ghost predicate TotalsAddUp(b: Batch, booked: seq<Booking>, sent: int) {
    && b.realizedValue == SumBy(booked, ValueBooked) && b.fee == SumBy(booked, FeeBooked)
    && b.timestamp == if booked == [] then sent else booked[|booked| - 1].now
  }

  /** The figures that only executions change. */
  predicate SameBooks(p: Position, p': Position) {
    p'.quantity == p.quantity && p'.realizedValue == p.realizedValue && p'.fee == p.fee
  }

  ghost predicate SamePositionBooks(positions: Positions, positions': Positions) {
    && positions'.Keys == positions.Keys
    && forall k :: k in positions ==> SameBooks(positions[k], positions'[k])
  }

  ghost predicate SameBatchBooks(b: Batch, b': Batch) {
    && SamePositionBooks(b.positions, b'.positions)
    && b'.realizedValue == b.realizedValue && b'.fee == b.fee && b'.timestamp == b.timestamp
  }

  lemma {:induction false} BasketKeepsBooks(
      basket: seq<BasketAsset>, side: Side, positions: Positions, delta: real, t: real)
    ensures SamePositionBooks(positions, AllocateBasket(basket, side, positions, delta, t).positions)
  {
    if basket != [] {
      var key := AssetKey(basket[0].symbol, side);
      if key in positions {
        var p := positions[key];
        var a := Allocate(p.openLots, p.closedLots, key.symbol, Asked(basket[0], delta), t);
        if a.ok && a.left <= t {
          var positions' := positions[key := p.(openLots := a.open, closedLots := a.closed)];
          BasketKeepsBooks(basket[1..], side, positions', delta, t);
        }
      }
    }
  }

  lemma FillKeepsBooks(positions: Positions, e: Engagement, o: SolverOrder, now: int, th: Thresholds)
    ensures SamePositionBooks(positions, FillIndexOrder(positions, e, o, now, th).positions)
  {
    hide BasketRate, AllocateBasket, FilledAt;
    var rate := BasketRate(e.basket, o.side, positions, e);
    if rate.Rate? {
      BasketKeepsBooks(e.basket, o.side, positions, FilledAt(e, rate.r) - e.filled, th.zero);
    }
  }

  lemma StepKeepsBooks(s: State, step: Step, c: Config, id: string)
    requires id in s.batches && id in Apply(s, step, c).batches
    requires !(step.Send? && step.id == id) && !(step.Execute? && step.id == id)
    ensures SameBatchBooks(s.batches[id], Apply(s, step, c).batches[id])
  {
    hide FillIndexOrder, UpdateBatch, LeftBehind, DueMints, Promote, Continued, CarryAll, CarryOut, SendBatch;
    match step
    case Confirm(j, confirmations, now) =>
      if j in s.engagements { AnswersOnly(s, j, 0, confirmations, now); }
    case FillNext(j, i) =>
      if CanFill(s, j, i) {
        var e := s.engagements[j].orders[i];
        FillKeepsBooks(s.batches[j].positions, e, s.orders[e.order], s.batches[j].timestamp, c.th);
      }
    case Send(j, now) => SendKeepsOthers(s, j, now, c, id);
    case _ =>
  }

  lemma SendKeepsOthers(s: State, id: string, now: int, c: Config, j: string)
    requires j != id && j in s.batches
    ensures j in SendBatch(s, id, now, c).0.batches && SendBatch(s, id, now, c).0.batches[j] == s.batches[j]
  {
    hide NewBatch, NewPositions, ToSend, Priced;
  }

  lemma NewBatchAddsUp(e: EngagedOrders, carryOvers: CarryOvers, now: int, k: AssetKey)
    requires Priced(e) && k in NewBatch(e, carryOvers, now).positions
    ensures var b := NewBatch(e, carryOvers, now);
      AddsUp(b.positions[k], k, [], if k in carryOvers then carryOvers[k].quantity else 0.0)
  {
    hide VolleyOf, AllCancelled;
  }

  lemma NewBatchTotals(e: EngagedOrders, carryOvers: CarryOvers, now: int)
    requires Priced(e)
    ensures TotalsAddUp(NewBatch(e, carryOvers, now), [], now)
  {
    hide VolleyOf, AllCancelled, CarryIn, NewPositions;
  }

  lemma BookOne(booked: seq<Booking>, y: Booking, f: Booking -> real)
    ensures SumBy(booked + [y], f) == SumBy(booked, f) + f(y)
  {
    SumByAppend(booked, [y], f);
    SumByOne(y, f);
  }

  /** A booked execution adds its quantity, value and fee to the position and the batch, and opens its lot last. */
  lemma ExecutionBooks(b: Batch, k: AssetKey, x: Execution, now: int)
    ensures var u := UpdateBatch(b, k, x, now);
      && (u.ok <==> Books(b, k))
      && u.batch.positions.Keys == b.positions.Keys
      && (forall j :: j in b.positions && j != k ==> u.batch.positions[j] == b.positions[j])
      && (k in b.positions ==>
            var p, p' := b.positions[k], u.batch.positions[k];
            && p'.quantity == p.quantity + x.quantity
            && p'.orderQuantity == p.orderQuantity && p'.volleySize == p.volleySize && p'.closedLots == p.closedLots
            && p'.cancelled == p.cancelled && p'.quantityCancelled == p.quantityCancelled
            && p'.realizedValue == p.realizedValue + (if u.ok then x.quantity * x.price else 0.0)
            && p'.fee == p.fee + (if u.ok then x.fee else 0.0)
            && p'.openLots == p.openLots + if u.ok then
                 [BatchLot(x.orderId, x.lotId, x.closingLotId, x.quantity, x.quantity, x.price, x.fee)] else [])
      && u.batch.realizedValue == b.realizedValue + (if u.ok then x.quantity * x.price else 0.0)
      && u.batch.fee == b.fee + (if u.ok then x.fee else 0.0)
      && u.batch.timestamp == (if u.ok then now else b.timestamp)
      && u.batch.cancelled == b.cancelled && u.batch.volleySize == b.volleySize
  {
  }

  lemma ExecutionAddsUp(
      b: Batch, k: AssetKey, x: Execution, now: int, booked: seq<Booking>, j: AssetKey, received: real)
    requires j in b.positions && AddsUp(b.positions[j], j, booked, received)
    ensures var u := UpdateBatch(b, k, x, now);
      && j in u.batch.positions
      && AddsUp(u.batch.positions[j], j, booked + (if Books(b, k) then [Booking(k, x, now)] else []),
                received + if k == j then x.quantity else 0.0)
  {
    ExecutionBooks(b, k, x, now);
    hide UpdateBatch;
    BookOne(booked, Booking(k, x, now), ValueAt(j));
    BookOne(booked, Booking(k, x, now), FeeAt(j));
    assert booked + [] == booked;
  }

  lemma ExecutionTotals(b: Batch, k: AssetKey, x: Execution, now: int, booked: seq<Booking>, sent: int)
    requires TotalsAddUp(b, booked, sent)
    ensures TotalsAddUp(UpdateBatch(b, k, x, now).batch,
                        booked + (if Books(b, k) then [Booking(k, x, now)] else []), sent)
  {
    ExecutionBooks(b, k, x, now);
    hide UpdateBatch;
    BookOne(booked, Booking(k, x, now), ValueBooked);
    BookOne(booked, Booking(k, x, now), FeeBooked);
    assert booked + [] == booked;
  }

  lemma NewFigures(s: State, id: string, now: int, c: Config)
    requires id !in s.batches && id in SendBatch(s, id, now, c).0.batches
    ensures var b := SendBatch(s, id, now, c).0.batches[id];
      && TotalsAddUp(b, [], now)
      && forall k :: k in b.positions ==>
           AddsUp(b.positions[k], k, [], if k in s.carryOvers then s.carryOvers[k].quantity else 0.0)
  {
    hide AddsUp, TotalsAddUp, NewBatch;
    BatchVolley.SentNow(s, id, now, c);
    hide SendBatch;
    NewBatchTotals(s.engagements[id], s.carryOvers, now);
    forall k | k in SendBatch(s, id, now, c).0.batches[id].positions
      ensures AddsUp(SendBatch(s, id, now, c).0.batches[id].positions[k], k, [],
                     if k in s.carryOvers then s.carryOvers[k].quantity else 0.0)
    {
      NewBatchAddsUp(s.engagements[id], s.carryOvers, now, k);
    }
  }

  /** Whatever happens to a batch, its positions hold what was carried in and executed, their value and fees are those
      of the booked executions, and the batch was last updated by the last of these. */
  lemma {:induction false} FiguresAreBooked(steps: seq<Step>, c: Config, id: string)
    requires BatchVolley.SentOnce(steps, c) && id in Run(steps, c).batches
    ensures var b := Run(steps, c).batches[id]; var booked := Booked(steps, c, id);
      && TotalsAddUp(b, booked, SentAt(steps, id))
      && forall k :: k in b.positions ==> AddsUp(b.positions[k], k, booked, Received(steps, c, id, k))
    decreases |steps|
  {
    hide AddsUp, TotalsAddUp, UpdateBatch, SameBatchBooks, Books, SendBatch, Complete, FillOf, AfterFill, EngageOrders;
    var before := steps[..|steps| - 1];
    var step := steps[|steps| - 1];
    var s := Run(before, c);
    if step.Send? && step.id == id {
      NewFigures(s, id, step.now, c);
    } else {
      BatchVolley.WasThere(s, step, c, id);
      FiguresAreBooked(before, c, id);
      var booked := Booked(before, c, id);
      if step.Execute? && step.id == id {
        ExecutionTotals(s.batches[id], step.k, step.x, step.now, booked, SentAt(before, id));
        ExecutionBooks(s.batches[id], step.k, step.x, step.now);
        forall k | k in s.batches[id].positions
          ensures AddsUp(Run(steps, c).batches[id].positions[k], k, Booked(steps, c, id), Received(steps, c, id, k))
        {
          ExecutionAddsUp(s.batches[id], step.k, step.x, step.now, booked, k, Received(before, c, id, k));
        }
      } else {
        StepKeepsBooks(s, step, c, id);
        SameAddsUp(s.batches[id], Run(steps, c).batches[id], before, steps, c, id);
      }
    }
  }

  lemma SameAddsUp(b: Batch, b': Batch, before: seq<Step>, steps: seq<Step>, c: Config, id: string)
    requires SameBatchBooks(b, b')
    requires TotalsAddUp(b, Booked(before, c, id), SentAt(before, id))
    requires forall k :: k in b.positions ==>
      AddsUp(b.positions[k], k, Booked(before, c, id), Received(before, c, id, k))
    requires Booked(steps, c, id) == Booked(before, c, id) && SentAt(steps, id) == SentAt(before, id)
    requires forall k :: Received(steps, c, id, k) == Received(before, c, id, k)
    ensures TotalsAddUp(b', Booked(steps, c, id), SentAt(steps, id))
    ensures forall k :: k in b'.positions ==>
      AddsUp(b'.positions[k], k, Booked(steps, c, id), Received(steps, c, id, k))
  {
    hide Booked, Received, SentAt;
    forall k | k in b'.positions
      ensures AddsUp(b'.positions[k], k, Booked(steps, c, id), Received(steps, c, id, k))
    {
      assert SameBooks(b.positions[k], b'.positions[k]);
    }
  }
}
