/** What an order's update is charged for, against the lots that the order was handed, over any run. */
module OrderBooks {
  import opened Common
  import opened BatchLots
  import opened BatchFillSpec
  import opened BatchManagerSpec
  import opened UpdateLedger
  import opened OrderProtocol
  import Iom = IndexOrderSpec
  import IomTheory = IndexOrderTheory

  // Fills, whether or not they succeed

  /** The lots a fill hands out. */
  function HandedOut(positions: Positions, e: Engagement, o: SolverOrder, now: int, th: Thresholds): seq<AssetLot> {
    var lots := FillIndexOrder(positions, e, o, now, th).order.lots;
    if |o.lots| <= |lots| then lots[|o.lots|..] else []
  }

  predicate Fillable(status: Status) {
    status.Engaged? || status.PartlyMintable?
  }

  lemma {:induction false} BasketSpends(
      basket: seq<BasketAsset>, side: Side, positions: Positions, delta: real, t: real)
    ensures var b := AllocateBasket(basket, side, positions, delta, t);
      b.error.None? ==> b.spent == SumBy(b.lots, CostOf)
  {
    hide Allocate, CostOf;
    if basket != [] {
      var key := AssetKey(basket[0].symbol, side);
      if key in positions {
        var p := positions[key];
        var a := Allocate(p.openLots, p.closedLots, key.symbol, Asked(basket[0], delta), t);
        if a.ok && a.left <= t {
          var positions' := positions[key := p.(openLots := a.open, closedLots := a.closed)];
          BasketSpends(basket[1..], side, positions', delta, t);
          SumByAppend(a.lots, AllocateBasket(basket[1..], side, positions', delta, t).lots, CostOf);
        }
      }
    }
  }

  /** A fill takes what it spends from the engaged collateral. A fill that is reported spends the cost of the lots it
      hands out; one that is not reported and did not fail changes nothing. */
  lemma FillEffect(positions: Positions, e: Engagement, o: SolverOrder, now: int, th: Thresholds)
    ensures var f := FillIndexOrder(positions, e, o, now, th);
      var given, spent := HandedOut(positions, e, o, now, th), f.order.spent - o.spent;
      && f.order == o.(filled := f.order.filled, engaged := o.engaged - spent, spent := f.order.spent,
                       lots := o.lots + given, timestamp := f.order.timestamp, status := f.order.status)
      && (!Fillable(o.status) ==> f.order == o && given == [])
      && (Fillable(o.status) ==> Fillable(f.order.status) || f.order.status.FullyMintable?)
      && (f.request.Some? ==>
            && f.error.None? && f.request.value.spent == spent == SumBy(given, CostOf)
            && f.request.value.quantity == f.order.filled - o.filled)
      && (f.request.None? && f.error.None? ==> f.order == o && given == [])
  {
    hide BasketRate, AllocateBasket, FilledAt, CostOf;
    var rate := BasketRate(e.basket, o.side, positions, e);
    assert o.lots[|o.lots|..] == [] && o.lots + [] == o.lots;
    if rate.Rate? && FilledAt(e, rate.r) - e.filled >= th.zero {
      var delta := FilledAt(e, rate.r) - e.filled;
      var b := AllocateBasket(e.basket, o.side, positions, delta, th.zero);
      BasketSpends(e.basket, o.side, positions, delta, th.zero);
      assert (o.lots + b.lots)[|o.lots|..] == b.lots;
    }
  }

  // Booking

  /** What the order manager books of a fill. */
  function Booked(w: World, positions: Positions, e: Engagement, now: int, th: Thresholds): Option<FillRequest> {
    var request := FillIndexOrder(positions, e, w.solver, now, th).request;
    if request.Some? && Iom.FillOrder(w.order, w.id, request.value.spent, request.value.quantity).Some? then request
    else None
  }

  function SpentOf(booked: Option<FillRequest>): real {
    match booked
    case None => 0.0
    case Some(request) => request.spent
  }

  /** The cost of the lots that a step hands out beyond what is booked for them. */
  function LooseIn(w: World, step: Step, th: Thresholds): real {
    match step
    case Fill(positions, e, now) =>
      SumBy(HandedOut(positions, e, w.solver, now, th), CostOf) - SpentOf(Booked(w, positions, e, now, th))
    case _ => 0.0
  }

  /** The update's paid-in amount is its spent, remaining and engaged collateral; with what is loose, what it spent is
      the fee and the cost of the order's lots. */
  ghost predicate Books(w: World, u: Iom.Update, loose: real) {
    && Holds(w.order, w.id, u)
    && IomTheory.Structured(w.order)
    && u.original == u.spent + u.remaining + OrZero(u.engaged)
    && u.spent + loose == u.fee + SumBy(w.solver.lots, CostOf)
  }

  /** What happens to the order manager's other updates is elsewhere. */
  ghost predicate Undisturbed(w: World, step: Step) {
    step.Other? ==> Elsewhere(w.order, step.op, w.id)
  }

  /** What a booked fill makes of the update. */
  function AfterBooking(u: Iom.Update, booked: Option<FillRequest>): Iom.Update {
    match booked
    case None => u
    case Some(request) => Iom.FillUpdate(u, request.spent, request.quantity)
  }

  /** A fill is booked on the update when it is engaged. */
  lemma FillIsMine(o: Iom.Order, id: string, u: Iom.Update, spent: real, quantity: real)
    requires Holds(o, id, u) && IomTheory.Structured(o)
    ensures Iom.FillOrder(o, id, spent, quantity).Some? <==> u.engaged.Some?
    ensures u.engaged.Some? ==>
      Holds(Iom.FillOrder(o, id, spent, quantity).value, id, Iom.FillUpdate(u, spent, quantity))
  {
    if u.engaged.Some? {
      FillMine(o, id, u, spent, quantity);
    } else if Iom.FillOrder(o, id, spent, quantity).Some? {
      HoldsOne(o, id, u);
      ThoseFound(o.updates, id);
      ThoseFound(o.engagedUpdates, id);
    }
  }

  lemma FillBooks(w: World, u: Iom.Update, step: Step, t: real, th: Thresholds, loose: real) returns (u': Iom.Update)
    requires Books(w, u, loose) && step.Fill?
    ensures Books(Apply(w, step, t, th), u', loose + LooseIn(w, step, th)) && u'.original == u.original
    ensures u' == AfterBooking(u, Booked(w, step.positions, step.e, step.now, th))
  {
    hide FillIndexOrder, Iom.FillOrder, Holds, IomTheory.Structured, CostOf, HandedOut;
    FillEffect(step.positions, step.e, w.solver, step.now, th);
    var f := FillIndexOrder(step.positions, step.e, w.solver, step.now, th);
    SumByAppend(w.solver.lots, HandedOut(step.positions, step.e, w.solver, step.now, th), CostOf);
    u' := AfterBooking(u, Booked(w, step.positions, step.e, step.now, th));
    if f.request.Some? {
      var spent, quantity := f.request.value.spent, f.request.value.quantity;
      FillIsMine(w.order, w.id, u, spent, quantity);
      if u.engaged.Some? {
        IomTheory.FillStructured(w.order, w.id, spent, quantity);
      }
    }
  }

  /** What the order manager engages of an update. */
  function Matched(w: World, u: Iom.Update, amount: real): real {
    if Iom.FullyEngaged(w.order, w.id) then 0.0 else Min(amount, u.remaining)
  }

  lemma RequestBooks(w: World, u: Iom.Update, amount: real, t: real, th: Thresholds, loose: real)
    returns (u': Iom.Update)
    requires Books(w, u, loose) && 0 < w.queued && Iom.SolverEngageOne(w.order, w.id, amount, t).EngagedOne?
    ensures Books(Apply(w, Request(amount), t, th), u', loose) && u'.original == u.original && u'.engaged.Some?
    ensures u' == if Iom.FullyEngaged(w.order, w.id) then u else Iom.Engage(u, Min(amount, u.remaining))
  {
    hide Holds, IomTheory.Structured, CostOf, Iom.FullyEngaged;
    EngageMine(w.order, w.id, u, amount, t);
    IomTheory.EngageOneStructured(w.order, w.id, amount, t);
    u' := if Iom.FullyEngaged(w.order, w.id) then u else Iom.Engage(u, Min(amount, u.remaining));
    if Iom.FullyEngaged(w.order, w.id) {
      FullyEngagedHasSome(w.order, w.id, u);
    }
  }

  lemma FullyEngagedHasSome(o: Iom.Order, id: string, u: Iom.Update)
    requires Holds(o, id, u) && IomTheory.Structured(o) && Iom.FullyEngaged(o, id)
    ensures u.engaged.Some?
  {
    var last := o.engagedUpdates[|o.engagedUpdates| - 1];
    HoldsOne(o, id, u);
    ThoseAround(o.engagedUpdates, |o.engagedUpdates| - 1, last, id);
    ThoseOne(last, id);
    assert |Iom.Those(o.engagedUpdates, id)| >= 1;
    ThoseFound(o.engagedUpdates, id);
    assert u == o.engagedUpdates[Iom.FindUpdate(o.engagedUpdates, id)];
  }

  lemma RouteBooks(w: World, u: Iom.Update, step: Step, t: real, th: Thresholds, loose: real)
    returns (u': Iom.Update)
    requires Books(w, u, loose) && step.Route?
    ensures Books(Apply(w, step, t, th), u', loose) && u'.original == u.original && u'.engaged == u.engaged
    ensures var o := Iom.CollateralReady(w.order, w.id, step.amount, step.fee, t);
      if step.answer.PreAuthFailed? || o.None? then u' == u
      else
        && u' == u.(spent := u.spent + step.fee, fee := u.fee + step.fee, remaining := u.remaining - step.fee)
        && Apply(w, step, t, th).collateralAck == Some(CollateralAck(u'.remaining, u'.spent))
  {
    hide Holds, IomTheory.Structured, CostOf, Iom.CollateralReady;
    u' := u;
    var o := Iom.CollateralReady(w.order, w.id, step.amount, step.fee, t);
    if !step.answer.PreAuthFailed? && o.Some? {
      ConfirmMine(w.order, w.id, u, step.amount, step.fee, t);
      IomTheory.ConfirmStructured(w.order, w.id, step.amount, step.fee, t);
      u' := u.(spent := u.spent + step.fee, fee := u.fee + step.fee, remaining := u.remaining - step.fee);
    }
  }

  /** Every step that leaves the order's update to its own messages books what is not loose. */
  lemma StepBooks(w: World, u: Iom.Update, step: Step, t: real, th: Thresholds, loose: real) returns (u': Iom.Update)
    requires Books(w, u, loose) && Undisturbed(w, step)
    ensures Books(Apply(w, step, t, th), u', loose + LooseIn(w, step, th)) && u'.original == u.original
    ensures u.engaged.Some? ==> u'.engaged.Some?
    ensures !step.Fill? && !step.Route? && !step.Request? ==> u' == u
  {
    hide Holds, IomTheory.Structured, CostOf, FillBoth, RouteCollateral, RequestEngagement, IomTheory.Apply, HandedOut,
      Booked;
    u' := u;
    match step
    case Fill(_, _, _) => u' := FillBooks(w, u, step, t, th, loose);
    case Route(_, _, _) => u' := RouteBooks(w, u, step, t, th, loose);
    case Request(amount) =>
      if 0 < w.queued {
        if Iom.SolverEngageOne(w.order, w.id, amount, t).EngagedOne? {
          u' := RequestBooks(w, u, amount, t, th, loose);
        } else {
          RefusedRequest(w, amount, t);
        }
      }
    case Other(op) =>
      ElsewhereKeepsMine(w.order, op, w.id, t);
      IomTheory.StepStructured(w.order, op, t);
      StillHolds(w.order, IomTheory.Apply(w.order, op, t), w.id, u);
    case _ =>
  }

  lemma RefusedRequest(w: World, amount: real, t: real)
    requires 0 < w.queued && Iom.SolverEngageOne(w.order, w.id, amount, t).EngageFailed?
    ensures RequestEngagement(w, amount, t) == w.(queued := w.queued - 1)
  {
  }

  lemma StillHolds(o: Iom.Order, o': Iom.Order, id: string, u: Iom.Update)
    requires Holds(o, id, u) && Mine(o', id) == Mine(o, id)
    ensures Holds(o', id, u)
  {
  }

  // Whole runs

  function Run(w: World, steps: seq<Step>, t: real, th: Thresholds): World
    decreases |steps|
  {
    if steps == [] then w else Apply(Run(w, steps[..|steps| - 1], t, th), steps[|steps| - 1], t, th)
  }

  ghost predicate UndisturbedRun(w: World, steps: seq<Step>, t: real, th: Thresholds)
    decreases |steps|
  {
    steps == [] ||
    var before := steps[..|steps| - 1];
    UndisturbedRun(w, before, t, th) && Undisturbed(Run(w, before, t, th), steps[|steps| - 1])
  }

  /** The cost of all lots handed out over a run beyond what was booked. */
  function Loose(w: World, steps: seq<Step>, t: real, th: Thresholds): real
    decreases |steps|
  {
    if steps == [] then 0.0
    else
      var before := steps[..|steps| - 1];
      Loose(w, before, t, th) + LooseIn(Run(w, before, t, th), steps[|steps| - 1], th)
  }

  lemma BeginBooks(order: Iom.Order, id: string, amount: real, now: int, t: real)
    requires IomTheory.Structured(order) && Mine(order, id) == []
    ensures Books(Begin(order, id, amount, now, t), Iom.NewUpdate(id, order.side, amount), 0.0)
  {
    IomTheory.SendStructured(order, id, order.side, amount, t);
    BeginHolds(order, Iom.NewUpdate(id, order.side, amount));
  }

  /** After any run, failing fills and unfitting engagements included, the update's paid-in amount is accounted for, and
      what it spent is the fee and the cost of the order's lots, less exactly what is loose. */
  lemma {:induction false} RunsBook(
      order: Iom.Order, id: string, amount: real, now: int, steps: seq<Step>, t: real, th: Thresholds)
      returns (u: Iom.Update)
    requires IomTheory.Structured(order) && Mine(order, id) == []
    requires UndisturbedRun(Begin(order, id, amount, now, t), steps, t, th)
    ensures var w0 := Begin(order, id, amount, now, t);
      Books(Run(w0, steps, t, th), u, Loose(w0, steps, t, th)) && u.original == amount
    decreases |steps|
  {
    hide Books, Apply, Undisturbed, Begin, Mine, IomTheory.Structured, LooseIn;
    if steps == [] {
      BeginBooks(order, id, amount, now, t);
      u := Iom.NewUpdate(id, order.side, amount);
    } else {
      var w0, before := Begin(order, id, amount, now, t), steps[..|steps| - 1];
      var last := RunsBook(order, id, amount, now, before, t, th);
      u := StepBooks(Run(w0, before, t, th), last, steps[|steps| - 1], t, th, Loose(w0, before, t, th));
    }
  }

  // Fills that succeed are booked

  /** An order that can be filled was engaged before. */
  predicate EngagedFirst(w: World, u: Iom.Update) {
    w.engageAck.Some? || Fillable(w.solver.status) ==> u.engaged.Some?
  }

  lemma StepEngagedFirst(w: World, u: Iom.Update, step: Step, t: real, th: Thresholds, loose: real)
    returns (u': Iom.Update)
    requires Books(w, u, loose) && Undisturbed(w, step) && EngagedFirst(w, u)
    ensures Books(Apply(w, step, t, th), u', loose + LooseIn(w, step, th)) && u'.original == u.original
    ensures EngagedFirst(Apply(w, step, t, th), u')
  {
    hide Holds, IomTheory.Structured, CostOf, IomTheory.Apply, FillIndexOrder, HandedOut, Booked, LooseIn;
    if step.Request? && 0 < w.queued && Iom.SolverEngageOne(w.order, w.id, step.amount, t).EngagedOne? {
      u' := RequestBooks(w, u, step.amount, t, th, loose);
      NothingLoose(w, step, th);
    } else {
      u' := StepBooks(w, u, step, t, th, loose);
      if step.Fill? {
        FillEffect(step.positions, step.e, w.solver, step.now, th);
      }
    }
  }

  lemma NothingLoose(w: World, step: Step, th: Thresholds)
    requires !step.Fill?
    ensures LooseIn(w, step, th) == 0.0
  {
  }

  predicate Succeeds(w: World, step: Step, th: Thresholds) {
    step.Fill? ==> FillIndexOrder(step.positions, step.e, w.solver, step.now, th).error.None?
  }

  lemma SuccessIsBooked(w: World, u: Iom.Update, step: Step, th: Thresholds, loose: real)
    requires Books(w, u, loose) && EngagedFirst(w, u) && Succeeds(w, step, th)
    ensures LooseIn(w, step, th) == 0.0
  {
    hide Holds, IomTheory.Structured, CostOf, FillIndexOrder, HandedOut, Iom.FillOrder;
    if step.Fill? {
      FillEffect(step.positions, step.e, w.solver, step.now, th);
      var f := FillIndexOrder(step.positions, step.e, w.solver, step.now, th);
      if f.request.Some? {
        FillIsMine(w.order, w.id, u, f.request.value.spent, f.request.value.quantity);
      }
    }
  }

  ghost predicate SuccessfulRun(w: World, steps: seq<Step>, t: real, th: Thresholds)
    decreases |steps|
  {
    steps == [] ||
    var before := steps[..|steps| - 1];
    SuccessfulRun(w, before, t, th) && Succeeds(Run(w, before, t, th), steps[|steps| - 1], th)
  }

  /** When every fill succeeds nothing is loose. */
  lemma {:induction false} SuccessfulRunsAreBooked(
      order: Iom.Order, id: string, amount: real, now: int, steps: seq<Step>, t: real, th: Thresholds)
      returns (u: Iom.Update)
    requires IomTheory.Structured(order) && Mine(order, id) == []
    requires UndisturbedRun(Begin(order, id, amount, now, t), steps, t, th)
    requires SuccessfulRun(Begin(order, id, amount, now, t), steps, t, th)
    ensures var w0 := Begin(order, id, amount, now, t);
      && Loose(w0, steps, t, th) == 0.0
      && Books(Run(w0, steps, t, th), u, 0.0) && EngagedFirst(Run(w0, steps, t, th), u)
    decreases |steps|
  {
    hide Books, Apply, Undisturbed, Mine, IomTheory.Structured, LooseIn, Succeeds;
    var w0 := Begin(order, id, amount, now, t);
    if steps == [] {
      BeginBooks(order, id, amount, now, t);
      u := Iom.NewUpdate(id, order.side, amount);
    } else {
      hide Begin, EngagedFirst;
      var before, step := steps[..|steps| - 1], steps[|steps| - 1];
      var last := SuccessfulRunsAreBooked(order, id, amount, now, before, t, th);
      SuccessIsBooked(Run(w0, before, t, th), last, step, th, 0.0);
      u := StepEngagedFirst(Run(w0, before, t, th), last, step, t, th, 0.0);
    }
  }
}
