/** By exactly how much the two ledgers of an order differ when no message between them is on its way. */
module OrderInStep {
  import opened Common
  import opened BatchLots
  import opened BatchFillSpec
  import opened BatchManagerSpec
  import opened UpdateLedger
  import BatchFillTheory
  import opened OrderProtocol
  import opened OrderBooks
  import Iom = IndexOrderSpec
  import IomTheory = IndexOrderTheory

  // What the ledgers agree on

  /** How much more the solver has than the order manager. */
  datatype Off = Off(remaining: real, engaged: real, spent: real, filled: real)

  const IN_STEP := Off(0.0, 0.0, 0.0, 0.0)

  predicate DifferBy(s: SolverOrder, u: Iom.Update, off: Off) {
    && s.remaining == u.remaining + off.remaining
    && s.engaged + s.carried == OrZero(u.engaged) + off.engaged
    && s.spent == u.spent + off.spent
    && s.filled == u.filled + off.filled
  }

  predicate Agree(s: SolverOrder, u: Iom.Update) {
    && s.remaining == u.remaining
    && s.engaged + s.carried == OrZero(u.engaged)
    && s.spent == u.spent
    && s.filled == u.filled
  }

  /** The solver's order once the messages to it are delivered. */
  function Delivered(w: World): SolverOrder {
    if w.collateralAck.Some?
    then w.solver.(spent := w.collateralAck.value.spent, remaining := w.collateralAck.value.remaining)
    else if w.engageAck.Some? then Engage(w.solver, w.engageAck.value, 0)
    else w.solver
  }

  /** Where the order is in its life: nowhere before the handshake, then in one of the queue, a request or a batch. */
  predicate Staged(w: World, u: Iom.Update) {
    && (!w.routed ==> !w.acked && w.solver.paymentId.None? && w.preAuth.None? && w.collateralAck.None?)
    && (w.acked ==> w.collateralAck.None?)
    && (w.solver.paymentId.Some? ==> w.preAuth.None?)
    && w.readied == (if w.acked && w.solver.paymentId.Some? then 1 else 0)
    && (!w.acked && w.solver.paymentId.None? ==> w.solver.status.Open? || w.solver.status.ManageCollateral?)
    && (w.acked != w.solver.paymentId.Some? ==> w.solver.status.Ready?)
    && w.queued + (if w.engageAck.Some? then 1 else 0) + (if w.live then 1 else 0) <= w.readied
    && (w.readied == 0 ==> w.solver.engaged == 0.0 && w.solver.carried == 0.0 && u.engaged.None?)
    && (w.live ==> w.solver.carried == 0.0)
  }

  ghost predicate InStepBy(w: World, u: Iom.Update, off: Off, loose: real) {
    && Books(w, u, loose)
    && DifferBy(Delivered(w), u, off)
    && Staged(w, u)
    && (w.readied == 0 ==> off == IN_STEP)
  }

  ghost predicate InStep(w: World, u: Iom.Update) {
    InStepBy(w, u, IN_STEP, 0.0)
  }

  // What may happen when, and what it does to the difference

  /** Each message of the handshake is sent once, a batch is completed while it runs, and what happens to the order
      manager's other updates is elsewhere. Fills may come late and fail, and requests may ask for anything. */
  ghost predicate Orderly(w: World, step: Step) {
    match step
    case ManageCollateral => w.solver.status.Open?
    case Route(_, _, _) => w.solver.status.ManageCollateral? && !w.routed
    case CompleteBatch(_) => w.live
    case Other(op) => Elsewhere(w.order, op, w.id)
    case _ => true
  }

  /** What the order manager reports as engaged beyond what it engages: a rest within the tolerance, or anything for an
      update that counts as fully engaged. */
  function OverReported(w: World, u: Iom.Update, amount: real, t: real): real
    requires Iom.SolverEngageOne(w.order, w.id, amount, t).EngagedOne?
  {
    amount - OrZero(Iom.SolverEngageOne(w.order, w.id, amount, t).unmatched) - Matched(w, u, amount)
  }

  /** A fill changes the difference by what is not booked of it. What it spends while an answer is on its way is
      overwritten by the answer. */
  function AfterFill(off: Off, w: World, positions: Positions, e: Engagement, now: int, th: Thresholds): Off {
    var f, booked := FillIndexOrder(positions, e, w.solver, now, th), Booked(w, positions, e, now, th);
    var spent, quantity := f.order.spent - w.solver.spent, f.order.filled - w.solver.filled;
    var quantityBooked := if booked.Some? then booked.value.quantity else 0.0;
    Off(off.remaining,
        off.engaged + SpentOf(booked) - (if w.engageAck.Some? then 0.0 else spent),
        off.spent + spent - SpentOf(booked),
        off.filled + quantity - quantityBooked)
  }

  /** The answer to a request replaces what the solver has as engaged, which is negative when lots were handed out after
      the batch was completed. It says that nothing remains when the update counts as fully engaged. */
  function AfterRequest(off: Off, w: World, amount: real, t: real): Off {
    if w.queued == 0 || Mine(w.order, w.id) == [] then off
    else if Iom.SolverEngageOne(w.order, w.id, amount, t).EngageFailed? then off
    else
      var u := Mine(w.order, w.id)[0];
      off.(remaining := if Iom.FullyEngaged(w.order, w.id) then -u.remaining else 0.0,
           engaged := off.engaged + OverReported(w, u, amount, t) - w.solver.engaged)
  }

  function After(off: Off, w: World, step: Step, t: real, th: Thresholds): Off {
    match step
    case Fill(positions, e, now) => AfterFill(off, w, positions, e, now, th)
    case Request(amount) => AfterRequest(off, w, amount, t)
    case _ => off
  }

  lemma MineIsHeld(w: World, u: Iom.Update)
    requires Holds(w.order, w.id, u)
    ensures Mine(w.order, w.id) == [u]
  {
  }

  lemma FillKeepsAccount(w: World, u: Iom.Update, step: Step, t: real, th: Thresholds, off: Off, loose: real)
    returns (u': Iom.Update)
    requires InStepBy(w, u, off, loose) && step.Fill?
    ensures InStepBy(Apply(w, step, t, th), u', After(off, w, step, t, th), loose + LooseIn(w, step, th))
    ensures u'.original == u.original && u' == AfterBooking(u, Booked(w, step.positions, step.e, step.now, th))
  {
    hide FillIndexOrder, Books, LooseIn, HandedOut, Iom.FillOrder;
    u' := FillBooks(w, u, step, t, th, loose);
    FillEffect(step.positions, step.e, w.solver, step.now, th);
    if w.readied == 0 {
      EarlyFillIsNothing(w, step, t, th);
    }
    BooksOnlyEngaged(w, u, step, th, loose);
  }

  lemma EarlyFillIsNothing(w: World, step: Step, t: real, th: Thresholds)
    requires step.Fill? && !Fillable(w.solver.status)
    ensures Booked(w, step.positions, step.e, step.now, th).None?
    ensures FillIndexOrder(step.positions, step.e, w.solver, step.now, th).order == w.solver
    ensures FillIndexOrder(step.positions, step.e, w.solver, step.now, th).request.None?
  {
    hide BasketRate, AllocateBasket, FilledAt;
  }

  lemma BooksOnlyEngaged(w: World, u: Iom.Update, step: Step, th: Thresholds, loose: real)
    requires Books(w, u, loose) && step.Fill?
    ensures Booked(w, step.positions, step.e, step.now, th).Some? ==> u.engaged.Some?
  {
    hide FillIndexOrder, Iom.FillOrder, Holds, IomTheory.Structured;
    var f := FillIndexOrder(step.positions, step.e, w.solver, step.now, th);
    if f.request.Some? {
      FillIsMine(w.order, w.id, u, f.request.value.spent, f.request.value.quantity);
    }
  }

  lemma ReportedEngagement(w: World, amount: real, t: real)
    requires 0 < w.queued && Iom.SolverEngageOne(w.order, w.id, amount, t).EngagedOne?
    ensures var e := Iom.SolverEngageOne(w.order, w.id, amount, t); var w' := RequestEngagement(w, amount, t);
      && w' == w.(queued := w.queued - 1, order := e.order,
                  engageAck := Some(Confirmation(amount - OrZero(e.unmatched), e.remaining)))
  {
  }

  lemma RequestKeepsAccount(w: World, u: Iom.Update, amount: real, t: real, th: Thresholds, off: Off, loose: real)
    returns (u': Iom.Update)
    requires InStepBy(w, u, off, loose)
    ensures InStepBy(Apply(w, Request(amount), t, th), u', AfterRequest(off, w, amount, t), loose)
    ensures u'.original == u.original
    ensures 0 < w.queued && Iom.SolverEngageOne(w.order, w.id, amount, t).EngagedOne? ==>
      && u' == (if Iom.FullyEngaged(w.order, w.id) then u else Iom.Engage(u, Min(amount, u.remaining)))
      && Apply(w, Request(amount), t, th).engageAck.Some?
  {
    hide Books, Iom.FullyEngaged, Iom.SolverEngageOne;
    u' := u;
    BooksHold(w, u, loose);
    MineIsHeld(w, u);
    if 0 < w.queued {
      if Iom.SolverEngageOne(w.order, w.id, amount, t).EngagedOne? {
        EngageMine(w.order, w.id, u, amount, t);
        u' := RequestBooks(w, u, amount, t, th, loose);
        ReportedEngagement(w, amount, t);
      } else {
        RefusedRequest(w, amount, t);
        SameBooks(w, RequestEngagement(w, amount, t), u, loose);
      }
    }
  }

  lemma BooksHold(w: World, u: Iom.Update, loose: real)
    requires Books(w, u, loose)
    ensures Holds(w.order, w.id, u) && IomTheory.Structured(w.order)
  {
  }

  lemma SameBooks(w: World, w': World, u: Iom.Update, loose: real)
    requires Books(w, u, loose) && w'.order == w.order && w'.id == w.id && w'.solver.lots == w.solver.lots
    ensures Books(w', u, loose)
  {
  }

  lemma RouteKeepsAccount(w: World, u: Iom.Update, step: Step, t: real, th: Thresholds, off: Off, loose: real)
    returns (u': Iom.Update)
    requires InStepBy(w, u, off, loose) && step.Route? && Orderly(w, step)
    ensures InStepBy(Apply(w, step, t, th), u', off, loose) && u'.original == u.original
  {
    hide Books, Iom.CollateralReady;
    u' := RouteBooks(w, u, step, t, th, loose);
  }

  lemma MessageKeepsAccount(w: World, u: Iom.Update, step: Step, t: real, th: Thresholds, off: Off, loose: real)
    requires InStepBy(w, u, off, loose)
    requires step.DeliverCollateralAck? || step.DeliverPreAuth? || step.DeliverEngageAck?
    ensures InStepBy(Apply(w, step, t, th), u, off, loose)
  {
    hide Books;
    SameBooks(w, Apply(w, step, t, th), u, loose);
  }

  lemma LocalKeepsAccount(w: World, u: Iom.Update, step: Step, t: real, th: Thresholds, off: Off, loose: real)
    requires InStepBy(w, u, off, loose) && Orderly(w, step)
    requires step.ManageCollateral? || step.CompleteBatch? || step.Other?
    ensures InStepBy(Apply(w, step, t, th), u, off, loose)
  {
    hide Books, IomTheory.Apply;
    var u' := StepBooks(w, u, step, t, th, loose);
  }

  /** Every orderly step changes the difference between the ledgers exactly as accounted. */
  lemma StepKeepsAccount(w: World, u: Iom.Update, step: Step, t: real, th: Thresholds, off: Off, loose: real)
    returns (u': Iom.Update)
    requires InStepBy(w, u, off, loose) && Orderly(w, step)
    ensures InStepBy(Apply(w, step, t, th), u', After(off, w, step, t, th), loose + LooseIn(w, step, th))
    ensures u'.original == u.original
  {
    hide InStepBy, Apply, Orderly, AfterFill, AfterRequest, LooseIn;
    if !step.Fill? {
      NothingLoose(w, step, th);
    }
    match step
    case Fill(_, _, _) => u' := FillKeepsAccount(w, u, step, t, th, off, loose);
    case Request(amount) => u' := RequestKeepsAccount(w, u, amount, t, th, off, loose);
    case Route(_, _, _) => u' := RouteKeepsAccount(w, u, step, t, th, off, loose);
    case DeliverCollateralAck(_) => MessageKeepsAccount(w, u, step, t, th, off, loose); u' := u;
    case DeliverPreAuth => MessageKeepsAccount(w, u, step, t, th, off, loose); u' := u;
    case DeliverEngageAck(_) => MessageKeepsAccount(w, u, step, t, th, off, loose); u' := u;
    case _ => LocalKeepsAccount(w, u, step, t, th, off, loose); u' := u;
  }

  // Whole runs

  ghost predicate OrderlyRun(w: World, steps: seq<Step>, t: real, th: Thresholds)
    decreases |steps|
  {
    steps == [] ||
    var before := steps[..|steps| - 1];
    OrderlyRun(w, before, t, th) && Orderly(Run(w, before, t, th), steps[|steps| - 1])
  }

  /** The difference that a run makes. */
  function Account(w: World, steps: seq<Step>, t: real, th: Thresholds): Off
    decreases |steps|
  {
    if steps == [] then IN_STEP
    else
      var before := steps[..|steps| - 1];
      After(Account(w, before, t, th), Run(w, before, t, th), steps[|steps| - 1], t, th)
  }

  lemma BeginsInStep(order: Iom.Order, id: string, amount: real, now: int, t: real)
    requires IomTheory.Structured(order) && Mine(order, id) == []
    ensures InStep(Begin(order, id, amount, now, t), Iom.NewUpdate(id, order.side, amount))
  {
    hide Books;
    BeginBooks(order, id, amount, now, t);
  }

  lemma {:induction false} RunsKeepAccount(
      order: Iom.Order, id: string, amount: real, now: int, steps: seq<Step>, t: real, th: Thresholds)
      returns (u: Iom.Update)
    requires IomTheory.Structured(order) && Mine(order, id) == []
    requires OrderlyRun(Begin(order, id, amount, now, t), steps, t, th)
    ensures var w0 := Begin(order, id, amount, now, t);
      InStepBy(Run(w0, steps, t, th), u, Account(w0, steps, t, th), Loose(w0, steps, t, th))
    ensures u.original == amount
    decreases |steps|
  {
    hide InStepBy, Apply, Orderly, Begin, Mine, IomTheory.Structured, After, LooseIn;
    if steps == [] {
      BeginsInStep(order, id, amount, now, t);
      u := Iom.NewUpdate(id, order.side, amount);
    } else {
      var w0, before := Begin(order, id, amount, now, t), steps[..|steps| - 1];
      var last := RunsKeepAccount(order, id, amount, now, before, t, th);
      u := StepKeepsAccount(Run(w0, before, t, th), last, steps[|steps| - 1], t, th, Account(w0, before, t, th),
                            Loose(w0, before, t, th));
    }
  }

  /** With no message on its way the ledgers differ by exactly what the run accounts for, across any number of batches,
      late fills, failing fills and unfitting requests; so they agree if and only if that is nothing. All that was paid
      in is accounted for. */
  lemma LedgersAgreeExactly(
      order: Iom.Order, id: string, amount: real, now: int, steps: seq<Step>, t: real, th: Thresholds)
    requires IomTheory.Structured(order) && Mine(order, id) == []
    requires OrderlyRun(Begin(order, id, amount, now, t), steps, t, th)
    ensures var w0 := Begin(order, id, amount, now, t); var w := Run(w0, steps, t, th);
      && |Mine(w.order, w.id)| == 1
      && var u := Mine(w.order, w.id)[0];
         && u.original == amount == u.spent + u.remaining + OrZero(u.engaged)
         && (w.collateralAck.None? && w.engageAck.None? ==>
               && DifferBy(w.solver, u, Account(w0, steps, t, th))
               && (Agree(w.solver, u) <==> Account(w0, steps, t, th) == IN_STEP))
  {
    hide Run, Begin, OrderlyRun, IomTheory.Structured, Account, Loose;
    var u := RunsKeepAccount(order, id, amount, now, steps, t, th);
    MineIsHeld(Run(Begin(order, id, amount, now, t), steps, t, th), u);
  }

  /** The order gets ready exactly once, when both the order manager and the collateral manager have answered, in
      whichever order; it is never in more than one of the queue, a request and a batch. */
  lemma ReadyExactlyOnce(
      order: Iom.Order, id: string, amount: real, now: int, steps: seq<Step>, t: real, th: Thresholds)
    requires IomTheory.Structured(order) && Mine(order, id) == []
    requires OrderlyRun(Begin(order, id, amount, now, t), steps, t, th)
    ensures var w := Run(Begin(order, id, amount, now, t), steps, t, th);
      && w.readied == (if w.acked && w.solver.paymentId.Some? then 1 else 0)
      && (0 < w.queued || w.engageAck.Some? || w.live ==> w.acked && w.solver.paymentId.Some?)
      && w.queued + (if w.engageAck.Some? then 1 else 0) + (if w.live then 1 else 0) <= 1
  {
    hide Run, Begin, OrderlyRun, IomTheory.Structured, Account, Loose;
    var u := RunsKeepAccount(order, id, amount, now, steps, t, th);
  }

  // Runs in which nothing comes to account

  /** The engagement the order manager reports is the one it books. */
  predicate Fits(w: World, u: Iom.Update, amount: real, t: real) {
    if Iom.FullyEngaged(w.order, w.id) then amount == 0.0 && u.remaining == 0.0
    else amount <= u.remaining || t <= amount - u.remaining
  }

  /** Fills happen in a running batch and succeed, and requests fit. */
  ghost predicate Legal(w: World, step: Step, t: real, th: Thresholds) {
    && Orderly(w, step)
    && Succeeds(w, step, th)
    && match step
       case Request(amount) => 0 < w.queued && Mine(w.order, w.id) != [] && Fits(w, Mine(w.order, w.id)[0], amount, t)
       case Fill(_, _, _) => w.live
       case _ => true
  }

  ghost predicate LegalRun(w: World, steps: seq<Step>, t: real, th: Thresholds)
    decreases |steps|
  {
    steps == [] ||
    (LegalRun(w, steps[..|steps| - 1], t, th) && Legal(Run(w, steps[..|steps| - 1], t, th), steps[|steps| - 1], t, th))
  }

  /** What the order manager reports beyond what it engages, in terms of the request. */
  lemma OverReportedExactly(w: World, u: Iom.Update, amount: real, t: real)
    requires Holds(w.order, w.id, u) && Iom.SolverEngageOne(w.order, w.id, amount, t).EngagedOne?
    ensures OverReported(w, u, amount, t) ==
      if Iom.FullyEngaged(w.order, w.id) then amount
      else if u.remaining < amount && amount - u.remaining < t then amount - u.remaining
      else 0.0
    ensures Fits(w, u, amount, t) <==>
      OverReported(w, u, amount, t) == 0.0 && (Iom.FullyEngaged(w.order, w.id) ==> u.remaining == 0.0)
  {
    hide Holds;
    EngageMine(w.order, w.id, u, amount, t);
  }

  /** Nothing was handed out late. */
  predicate Calm(w: World) {
    0 < w.queued || w.engageAck.Some? ==> w.solver.engaged == 0.0
  }

  ghost predicate Quiet(w: World, u: Iom.Update) {
    InStep(w, u) && EngagedFirst(w, u) && Calm(w)
  }

  lemma LegalRequest(w: World, u: Iom.Update, amount: real, t: real, th: Thresholds)
    requires InStep(w, u) && Calm(w) && Legal(w, Request(amount), t, th)
    ensures AfterRequest(IN_STEP, w, amount, t) == IN_STEP
  {
    hide Holds, Iom.SolverEngageOne, Iom.FullyEngaged, Staged, Fits;
    BooksHold(w, u, 0.0);
    MineIsHeld(w, u);
    if Iom.SolverEngageOne(w.order, w.id, amount, t).EngagedOne? {
      OverReportedExactly(w, u, amount, t);
    }
  }

  lemma LegalFill(w: World, u: Iom.Update, step: Step, t: real, th: Thresholds)
    requires InStep(w, u) && EngagedFirst(w, u) && step.Fill? && Legal(w, step, t, th)
    ensures AfterFill(IN_STEP, w, step.positions, step.e, step.now, th) == IN_STEP && LooseIn(w, step, th) == 0.0
  {
    hide FillIndexOrder, HandedOut, Iom.FillOrder, Holds, IomTheory.Structured, CostOf;
    SuccessIsBooked(w, u, step, th, 0.0);
    FillEffect(step.positions, step.e, w.solver, step.now, th);
    var f := FillIndexOrder(step.positions, step.e, w.solver, step.now, th);
    if f.request.Some? {
      FillIsMine(w.order, w.id, u, f.request.value.spent, f.request.value.quantity);
    }
  }

  lemma LegalKeepsCalm(w: World, u: Iom.Update, step: Step, t: real, th: Thresholds)
    requires InStep(w, u) && Calm(w) && Legal(w, step, t, th)
    ensures Calm(Apply(w, step, t, th))
  {
    hide Books, IomTheory.Apply, FillIndexOrder, Iom.CollateralReady, Iom.SolverEngageOne, Elsewhere;
  }

  lemma SameUpdate(w: World, u: Iom.Update, v: Iom.Update)
    requires Mine(w.order, w.id) == [u] && Mine(w.order, w.id) == [v]
    ensures u == v
  {
    assert [u][0] == [v][0];
  }

  lemma LegalStepStaysQuiet(w: World, u: Iom.Update, step: Step, t: real, th: Thresholds) returns (u': Iom.Update)
    requires Quiet(w, u) && Legal(w, step, t, th)
    ensures Quiet(Apply(w, step, t, th), u') && u'.original == u.original
    ensures After(IN_STEP, w, step, t, th) == IN_STEP
  {
    hide Holds, IomTheory.Structured, Staged, Apply, Orderly, LooseIn, EngagedFirst, AfterFill, AfterRequest, Calm,
      Fits, Succeeds;
    u' := StepKeepsAccount(w, u, step, t, th, IN_STEP, 0.0);
    OrderlyIsUndisturbed(w, step);
    var v := StepEngagedFirst(w, u, step, t, th, 0.0);
    BooksHold(Apply(w, step, t, th), u', LooseIn(w, step, th));
    BooksHold(Apply(w, step, t, th), v, 0.0 + LooseIn(w, step, th));
    MineIsHeld(Apply(w, step, t, th), u');
    MineIsHeld(Apply(w, step, t, th), v);
    SameUpdate(Apply(w, step, t, th), u', v);
    LegalKeepsCalm(w, u, step, t, th);
    match step
    case Fill(_, _, _) => LegalFill(w, u, step, t, th);
    case Request(amount) => LegalRequest(w, u, amount, t, th); NothingLoose(w, step, th);
    case _ => NothingLoose(w, step, th);
  }

  lemma {:induction false} LegalRunsStayQuiet(
      order: Iom.Order, id: string, amount: real, now: int, steps: seq<Step>, t: real, th: Thresholds)
      returns (u: Iom.Update)
    requires IomTheory.Structured(order) && Mine(order, id) == []
    requires LegalRun(Begin(order, id, amount, now, t), steps, t, th)
    ensures var w0 := Begin(order, id, amount, now, t);
      && OrderlyRun(w0, steps, t, th) && Account(w0, steps, t, th) == IN_STEP
      && Quiet(Run(w0, steps, t, th), u) && u.original == amount
    decreases |steps|
  {
    hide Quiet, Apply, Legal, Begin, Mine, IomTheory.Structured, After;
    if steps == [] {
      BeginsQuiet(order, id, amount, now, t);
      u := Iom.NewUpdate(id, order.side, amount);
    } else {
      var w0, before := Begin(order, id, amount, now, t), steps[..|steps| - 1];
      var last := LegalRunsStayQuiet(order, id, amount, now, before, t, th);
      u := LegalStepStaysQuiet(Run(w0, before, t, th), last, steps[|steps| - 1], t, th);
      LegalIsOrderly(Run(w0, before, t, th), steps[|steps| - 1], t, th);
    }
  }

  lemma OrderlyIsUndisturbed(w: World, step: Step)
    requires Orderly(w, step)
    ensures Undisturbed(w, step)
  {
  }

  lemma LegalIsOrderly(w: World, step: Step, t: real, th: Thresholds)
    requires Legal(w, step, t, th)
    ensures Orderly(w, step)
  {
  }

  lemma BeginsQuiet(order: Iom.Order, id: string, amount: real, now: int, t: real)
    requires IomTheory.Structured(order) && Mine(order, id) == []
    ensures Quiet(Begin(order, id, amount, now, t), Iom.NewUpdate(id, order.side, amount))
  {
    hide InStep;
    BeginsInStep(order, id, amount, now, t);
  }

  /** While fills succeed in running batches and requests fit, the ledgers agree whenever no message is on its way, and
      what was spent is the fee and the cost of the order's lots. */
  lemma LedgersAgree(order: Iom.Order, id: string, amount: real, now: int, steps: seq<Step>, t: real, th: Thresholds)
    requires IomTheory.Structured(order) && Mine(order, id) == []
    requires LegalRun(Begin(order, id, amount, now, t), steps, t, th)
    ensures var w := Run(Begin(order, id, amount, now, t), steps, t, th);
      && |Mine(w.order, w.id)| == 1
      && var u := Mine(w.order, w.id)[0];
         && u.spent == u.fee + SumBy(w.solver.lots, CostOf)
         && (w.collateralAck.None? && w.engageAck.None? ==> Agree(w.solver, u))
  {
    hide Run, Begin, LegalRun, IomTheory.Structured, OrderlyRun, Account;
    var u := LegalRunsStayQuiet(order, id, amount, now, steps, t, th);
    MineIsHeld(Run(Begin(order, id, amount, now, t), steps, t, th), u);
  }

  // One request, one fill at a time

  /** A request leaves the ledgers in step if and only if what is over-reported makes up for what was handed out late,
      and nothing remains of an update that counts as fully engaged. */
  lemma RequestsStayInStepExactly(w: World, u: Iom.Update, amount: real, t: real, th: Thresholds)
    requires InStep(w, u) && 0 < w.queued && Iom.SolverEngageOne(w.order, w.id, amount, t).EngagedOne?
    ensures (exists u' :: InStep(Apply(w, Request(amount), t, th), u')) <==>
      && OverReported(w, u, amount, t) == w.solver.engaged
      && (Iom.FullyEngaged(w.order, w.id) ==> u.remaining == 0.0)
  {
    hide Books, Iom.SolverEngageOne, Iom.FullyEngaged, OverReported, Staged;
    var w' := Apply(w, Request(amount), t, th);
    BooksHold(w, u, 0.0);
    MineIsHeld(w, u);
    var u' := RequestKeepsAccount(w, u, amount, t, th, IN_STEP, 0.0);
    var off := AfterRequest(IN_STEP, w, amount, t);
    BooksHold(w', u', 0.0);
    MineIsHeld(w', u');
    if v :| InStep(w', v) {
      BooksHold(w', v, 0.0);
      MineIsHeld(w', v);
      SameUpdate(w', u', v);
    }
    if off == IN_STEP {
      assert InStep(w', u');
    }
  }

  /** An answer to an engagement that fits leaves the total of remaining and engaged collateral as it was, as far as the
      order manager has it. */
  lemma AnswersKeepTheTotal(w: World, u: Iom.Update, amount: real, t: real, th: Thresholds)
    requires InStep(w, u) && 0 < w.queued && Iom.SolverEngageOne(w.order, w.id, amount, t).EngagedOne?
    requires Fits(w, u, amount, t)
    ensures var w' := Apply(w, Request(amount), t, th);
      w'.engageAck.Some? && w'.engageAck.value.engaged + w'.engageAck.value.remaining == w.solver.remaining
  {
    hide Books, Iom.SolverEngageOne, Iom.FullyEngaged;
    BooksHold(w, u, 0.0);
    OverReportedExactly(w, u, amount, t);
    EngageMine(w.order, w.id, u, amount, t);
    ReportedEngagement(w, amount, t);
  }

  /** An authorization, however often it comes, keeps the ledgers in step, and readies the order exactly when it is the
      first one and the collateral was acknowledged. */
  lemma AuthorizationCountsOnce(w: World, u: Iom.Update, paymentId: string)
    requires InStep(w, u) && w.routed
    ensures var w' := HandlePreAuth(w, paymentId);
      && InStep(w', u)
      && w'.queued - w.queued == w'.readied - w.readied
      && (w'.readied == w.readied + 1 <==> w.acked && w.solver.paymentId.None?)
  {
    hide Holds, IomTheory.Structured, CostOf;
  }

  /** A fill of an order that waits in the queue leaves the ledgers in step, with less than nothing engaged. */
  lemma LateFill(w: World, u: Iom.Update, step: Step, t: real, th: Thresholds)
    requires Quiet(w, u) && 0 < w.queued && step.Fill? && Succeeds(w, step, th)
    ensures var w1 := Apply(w, step, t, th);
      && AfterFill(IN_STEP, w, step.positions, step.e, step.now, th) == IN_STEP && LooseIn(w, step, th) == 0.0
      && w1.queued == w.queued && w1.engageAck.None? && w1.collateralAck.None?
      && w1.solver.engaged == w.solver.spent - w1.solver.spent
      && w1.solver.spent == FillIndexOrder(step.positions, step.e, w.solver, step.now, th).order.spent
  {
    hide FillIndexOrder, HandedOut, Iom.FillOrder, Holds, IomTheory.Structured, CostOf;
    SuccessIsBooked(w, u, step, th, 0.0);
    FillEffect(step.positions, step.e, w.solver, step.now, th);
    var f := FillIndexOrder(step.positions, step.e, w.solver, step.now, th);
    if f.request.Some? {
      FillIsMine(w.order, w.id, u, f.request.value.spent, f.request.value.quantity);
    }
  }

  /** A request that fits and its answer, for an order in the queue with some collateral engaged. */
  lemma AnsweredRequest(w: World, u: Iom.Update, amount: real, now: int, t: real, th: Thresholds)
    returns (w': World, u': Iom.Update)
    requires InStep(w, u) && 0 < w.queued && w.engageAck.None? && w.collateralAck.None? && amount <= u.remaining
    requires !Iom.FullyEngaged(w.order, w.id) && Iom.SolverEngageOne(w.order, w.id, amount, t).EngagedOne?
    ensures w' == Apply(Apply(w, Request(amount), t, th), DeliverEngageAck(now), t, th)
    ensures w'.collateralAck.None? && w'.engageAck.None? && Mine(w'.order, w'.id) == [u']
    ensures DifferBy(w'.solver, u', IN_STEP.(engaged := -w.solver.engaged))
  {
    hide Books, Iom.SolverEngageOne, Iom.FullyEngaged, RequestEngagement;
    BooksHold(w, u, 0.0);
    MineIsHeld(w, u);
    OverReportedExactly(w, u, amount, t);
    var w1 := Apply(w, Request(amount), t, th);
    var off := AfterRequest(IN_STEP, w, amount, t);
    u' := RequestKeepsAccount(w, u, amount, t, th, IN_STEP, 0.0);
    ReportedEngagement(w, amount, t);
    w' := Apply(w1, DeliverEngageAck(now), t, th);
    MessageKeepsAccount(w1, u', DeliverEngageAck(now), t, th, off, 0.0);
    BooksHold(w', u', 0.0);
    MineIsHeld(w', u');
  }

  /** After a late fill, a request that fits and its answer, the solver has more engaged than the order manager, by
      exactly what the fill spent; so the ledgers agree if and only if that was nothing. */
  lemma LateFillPartsLedgers(
      w: World, u: Iom.Update, positions: Positions, e: Engagement, now: int, amount: real, t: real, th: Thresholds)
    requires Quiet(w, u) && 0 < w.queued && FillIndexOrder(positions, e, w.solver, now, th).error.None?
    requires var w1 := Apply(w, Step.Fill(positions, e, now), t, th);
      && amount <= u.remaining && !Iom.FullyEngaged(w1.order, w1.id)
      && Iom.SolverEngageOne(w1.order, w1.id, amount, t).EngagedOne?
    ensures var spent := FillIndexOrder(positions, e, w.solver, now, th).order.spent - w.solver.spent;
      var w1 := Apply(w, Step.Fill(positions, e, now), t, th);
      var w3 := Apply(Apply(w1, Request(amount), t, th), DeliverEngageAck(now), t, th);
      && |Mine(w3.order, w3.id)| == 1
      && DifferBy(w3.solver, Mine(w3.order, w3.id)[0], IN_STEP.(engaged := spent))
      && (Agree(w3.solver, Mine(w3.order, w3.id)[0]) <==> spent == 0.0)
  {
    hide InStepBy, FillIndexOrder, Iom.SolverEngageOne, Iom.FullyEngaged, Apply, AfterFill, LooseIn, Booked;
    var step := Step.Fill(positions, e, now);
    var w1 := Apply(w, step, t, th);
    var u1 := FillKeepsAccount(w, u, step, t, th, IN_STEP, 0.0);
    LateFill(w, u, step, t, th);
    var w3, u3 := AnsweredRequest(w1, u1, amount, now, t, th);
  }

  /** A fill that stops for lack of lots leaves the ledgers in step if and only if the lots it handed out until then
      cost nothing. */
  lemma FailedFillInStepExactly(
      w: World, u: Iom.Update, positions: Positions, e: Engagement, now: int, t: real, th: Thresholds)
    requires InStep(w, u) && BatchFillTheory.RunsShort(FillIndexOrder(positions, e, w.solver, now, th))
    ensures var w' := Apply(w, Step.Fill(positions, e, now), t, th);
      var given := HandedOut(positions, e, w.solver, now, th);
      && w'.order == w.order && w'.solver.spent == w.solver.spent
      && w'.solver.lots == w.solver.lots + given
      && ((exists u' :: InStep(w', u')) <==> SumBy(given, CostOf) == 0.0)
  {
    hide Holds, IomTheory.Structured, CostOf, FillIndexOrder, HandedOut, Staged;
    ShortFillSpendsNothing(positions, e, w.solver, now, th);
    FillEffect(positions, e, w.solver, now, th);
    var w' := Apply(w, Step.Fill(positions, e, now), t, th);
    var given := HandedOut(positions, e, w.solver, now, th);
    SumByAppend(w.solver.lots, given, CostOf);
    MineIsHeld(w, u);
    if u' :| InStep(w', u') {
      MineIsHeld(w', u');
      SameUpdate(w, u, u');
    }
    if SumBy(given, CostOf) == 0.0 {
      SameStage(w, w', u);
      assert InStep(w', u);
    }
  }

  lemma ShortFillSpendsNothing(positions: Positions, e: Engagement, o: SolverOrder, now: int, th: Thresholds)
    requires BatchFillTheory.RunsShort(FillIndexOrder(positions, e, o, now, th))
    ensures var f := FillIndexOrder(positions, e, o, now, th);
      f.request.None? && f.order == o.(lots := f.order.lots)
  {
    hide BasketRate, AllocateBasket, FilledAt;
    BatchFillTheory.RateErrors(e.basket, o.side, positions, e);
  }

  lemma SameStage(w: World, w': World, u: Iom.Update)
    requires Staged(w, u) && w' == w.(solver := w.solver.(lots := w'.solver.lots))
    ensures Staged(w', u)
  {
  }
}
