/** Runs of one order in two ledgers: to an invoice, and to where the ledgers part. */
module OrderExamples {
  import opened Common
  import opened BatchLots
  import opened BatchFillSpec
  import opened BatchManagerSpec
  import opened UpdateLedger
  import opened OrderProtocol
  import opened OrderBooks
  import opened OrderInStep
  import MintInvoice
  import BatchExamples
  import BatchFillTheory
  import BatchReports
  import BatchRuns
  import BatchSafety
  import BatchShortage
  import Iom = IndexOrderSpec
  import IomTheory = IndexOrderTheory

  ghost predicate Reaches(w0: World, steps: seq<Step>, w: World, t: real, th: Thresholds) {
    LegalRun(w0, steps, t, th) && Run(w0, steps, t, th) == w
  }

  lemma NoSteps(w: World, t: real, th: Thresholds)
    ensures Reaches(w, [], w, t, th)
  {
  }

  lemma Next(w0: World, steps: seq<Step>, w: World, step: Step, t: real, th: Thresholds)
    returns (steps': seq<Step>, w': World)
    requires Reaches(w0, steps, w, t, th) && Legal(w, step, t, th)
    ensures steps' == steps + [step] && w' == Apply(w, step, t, th) && Reaches(w0, steps', w', t, th)
  {
    hide Apply, Legal;
    steps', w' := steps + [step], Apply(w, step, t, th);
    assert steps'[..|steps|] == steps;
  }

  // From deposit to engagement

  function Ready(amount: real, fee: real): SolverOrder {
    SolverOrder(Buy, amount - fee, 0.0, 0.0, amount - fee, fee, 0.0, 0, Status.Ready, Some("P"), [])
  }

  function PaidIn(id: string, amount: real, fee: real): Iom.Update {
    Iom.NewUpdate(id, Buy, amount).(spent := fee, fee := fee, remaining := amount - fee)
  }

  /** The order manager's order has this one update, still in the queue. */
  ghost predicate Queued(w: World, u: Iom.Update) {
    w.order.updates == [u] && w.order.engagedUpdates == [] && w.order.closedUpdates == [] && u.id == w.id
  }

  lemma RouteOnly(w: World, u: Iom.Update, amount: real, fee: real, paymentId: string, t: real)
    requires Queued(w, u) && amount - t <= u.remaining - fee
    ensures var w' := RouteCollateral(w, amount, fee, Approved(paymentId), t);
      var u' := u.(spent := u.spent + fee, fee := u.fee + fee, remaining := u.remaining - fee);
      && w' == w.(solver := w.solver.(routed := amount), preAuth := Some(paymentId), routed := true, order := w'.order,
                  collateralAck := Some(CollateralAck(u'.remaining, u'.spent)))
      && Queued(w', u')
  {
    assert Iom.FindUpdate([u], w.id) == 0;
  }

  /** The handshake. */
  lemma GetsReady(id: string, amount: real, fee: real, t: real, th: Thresholds) returns (steps: seq<Step>, w: World)
    requires 0.0 <= t
    ensures Reaches(Begin(Iom.NewOrder(Buy), id, amount, 0, t), steps, w, t, th)
    ensures Queued(w, PaidIn(id, amount, fee)) && w.solver == Ready(amount, fee) && w.id == id
    ensures w.queued == 1 && !w.live && w.engageAck.None? && w.collateralAck.None?
  {
    hide RouteCollateral, Reaches;
    var w0 := Begin(Iom.NewOrder(Buy), id, amount, 0, t);
    NoSteps(w0, t, th);
    var first := Iom.NewUpdate(id, Buy, amount);
    assert w0.order.updates == [] + [first] == [first];
    steps, w := Next(w0, [], w0, Step.ManageCollateral, t, th);
    RouteOnly(w, first, amount - fee, fee, "P", t);
    steps, w := Next(w0, steps, w, Route(amount - fee, fee, Approved("P")), t, th);
    steps, w := Next(w0, steps, w, DeliverCollateralAck(0), t, th);
    steps, w := Next(w0, steps, w, DeliverPreAuth, t, th);
  }

  /** The order is engaged for an amount, and the rest remains. */
  lemma RequestSome(w: World, u: Iom.Update, amount: real, t: real)
    requires Queued(w, u) && 0 < w.queued && amount <= u.remaining && 0.0 <= t
    ensures Mine(w.order, w.id) == [u] && Fits(w, u, amount, t) && !Iom.FullyEngaged(w.order, w.id)
    ensures Iom.SolverEngageOne(w.order, w.id, amount, t).EngagedOne?
    ensures var w' := RequestEngagement(w, amount, t); var u' := Iom.Engage(u, amount);
      && w'.engageAck == Some(Confirmation(amount, u.remaining - amount)) && w'.order.engaged.Some?
      && w' == w.(queued := w.queued - 1, order := w'.order, engageAck := w'.engageAck)
      && w'.order.closedUpdates == []
      && if u'.remaining < t then w'.order.updates == [] && w'.order.engagedUpdates == [u'] else Queued(w', u')
  {
    assert Iom.Those([u], w.id) == [u];
    assert [u] + [] == [u];
    var u' := Iom.Engage(u, amount);
    assert [u][0 := u'] == [u'] && [] + [u'] == [u'];
  }

  lemma Engages(w0: World, steps: seq<Step>, w: World, u: Iom.Update, amount: real, t: real, th: Thresholds)
    returns (steps': seq<Step>, w': World)
    requires Reaches(w0, steps, w, t, th) && Queued(w, u) && w.queued == 1 && amount <= u.remaining && 0.0 <= t
    requires w.engageAck.None? && w.collateralAck.None?
    ensures steps' == steps + [Request(amount), DeliverEngageAck(0)] && Reaches(w0, steps', w', t, th)
    ensures w'.solver == BatchManagerSpec.Engage(w.solver, Confirmation(amount, u.remaining - amount), 0)
    ensures w'.live && w'.queued == 0 && w'.engageAck.None? && w'.collateralAck.None? && w'.order.engaged.Some?
    ensures w'.id == w.id && w'.order.closedUpdates == []
    ensures var u' := Iom.Engage(u, amount);
      if u'.remaining < t then w'.order.updates == [] && w'.order.engagedUpdates == [u'] else Queued(w', u')
  {
    hide Reaches, RequestEngagement, Fits, Mine, Iom.SolverEngageOne, BatchManagerSpec.Engage;
    var w1;
    RequestSome(w, u, amount, t);
    steps', w1 := Next(w0, steps, w, Request(amount), t, th);
    steps', w' := Next(w0, steps', w1, DeliverEngageAck(0), t, th);
  }

  // To an invoice

  const LOT := BatchLot("E", "L", None, 1.0, 1.0, 8.0, 0.0)
  const POSITIONS := map[AssetKey("A", Buy) := Position(1.0, 1.0, 8.0, 8.0, 0.0, false, 0.0, [LOT], [])]
  const ALL_OF_IT := Engagement("X", Buy, [BasketAsset("A", 1.0)], map["A" := 1.0], map["A" := 1.0], 1.0, 0.0, 9.0)

  /** A lot worth eight is handed out. */
  lemma FillsEight(o: SolverOrder, th: Thresholds)
    requires o.side == Buy && o.status.Engaged? && o.spent == 1.0 && o.remaining == 0.0 && o.engaged == 9.0
    requires o.lots == [] && th.zero == 0.0 && th.mint <= th.fill < 0.9
    ensures var f := FillIndexOrder(POSITIONS, ALL_OF_IT, o, 0, th);
      && f.error.None? && f.request.Some? && f.request.value.spent == 8.0 && f.request.value.quantity == 1.0
      && f.order == o.(filled := o.filled + 1.0, engaged := 1.0, spent := 9.0, timestamp := 0,
                       status := FullyMintable, lots := [BuildAssetLot(LOT, "A", 1.0)])
  {
    hide BasketRate, AllocateBasket, BuildAssetLot;
    var p := POSITIONS[AssetKey("A", Buy)];
    assert POSITIONS == map[AssetKey("A", Buy) := p];
    assert p.openLots == [p.openLots[0]];
    BatchExamples.OneAsset(BasketAsset("A", 1.0), p, ALL_OF_IT, th.zero);
    assert FilledAt(ALL_OF_IT, 1.0) - ALL_OF_IT.filled == ALL_OF_IT.quantity;
    assert [] + [BuildAssetLot(LOT, "A", 1.0)] == [BuildAssetLot(LOT, "A", 1.0)];
    assert 9.0 / 10.0 == 0.9;
  }

  lemma BookedFill(w: World, u: Iom.Update, t: real, th: Thresholds)
    requires w.order.updates == [] && w.order.engagedUpdates == [u] && u.id == w.id
    requires u.engaged.Some? && w.order.engaged.Some?
    requires FillIndexOrder(POSITIONS, ALL_OF_IT, w.solver, 0, th).request.Some?
    ensures var w' := Apply(w, Step.Fill(POSITIONS, ALL_OF_IT, 0), t, th);
      var f := FillIndexOrder(POSITIONS, ALL_OF_IT, w.solver, 0, th);
      && w' == w.(solver := f.order, order := w'.order)
      && w'.order.updates == [] && w'.order.closedUpdates == w.order.closedUpdates
      && |w'.order.engagedUpdates| == 1
      && w'.order.engagedUpdates[0] == Iom.FillUpdate(u, f.request.value.spent, f.request.value.quantity)
  {
    hide FillIndexOrder;
    assert Iom.FindUpdate([u], w.id) == 0;
  }

  lemma EngagedIsMinted(w: World, u: Iom.Update, base: string -> string)
    requires w.order.engagedUpdates == [u] && w.order.closedUpdates == [] && u.id == w.id
    requires w.solver.paymentId.Some? && u.original != u.fee
    ensures MintInvoice.Minted(w, base).Some?
  {
    assert Iom.FindUpdate([u], w.id) == 0;
    assert [] + [u] == [u];
  }

  lemma InvoicedLots(w: World, base: string -> string)
    requires w.solver.lots == [BuildAssetLot(LOT, "A", 1.0)] && MintInvoice.Minted(w, base).Some?
    ensures MintInvoice.Minted(w, base).value.assetsValue == 8.0
  {
    var lot := BuildAssetLot(LOT, "A", 1.0);
    assert [lot][..0] == [];
    assert MintInvoice.Compress([lot], [], base) == [MintInvoice.Assigned(lot, base)];
    SumByOne(MintInvoice.Assigned(lot, base), MintInvoice.ValueOf);
  }

  lemma EngageKeepsPaidIn(u: Iom.Update, amount: real)
    ensures var u' := Iom.Engage(u, amount);
      u'.id == u.id && u'.original == u.original && u'.fee == u.fee && u'.engaged.Some?
  {
  }

  /** Orders do get invoiced: paid in for ten, charged a fee of one, engaged, filled with a lot worth eight, and
      completed. */
  lemma SomeOrderIsInvoiced(t: real, th: Thresholds, base: string -> string) returns (steps: seq<Step>, w: World)
    requires 0.0 < t && th.zero == 0.0 && th.mint <= th.fill < 0.9
    ensures Reaches(Begin(Iom.NewOrder(Buy), "X", 10.0, 0, t), steps, w, t, th)
    ensures MintInvoice.Minted(w, base).Some? && MintInvoice.Minted(w, base).value.assetsValue == 8.0
  {
    hide MintInvoice.Minted, Iom.Engage, Reaches, FillIndexOrder, FillBoth, Begin, PaidIn, Queued;
    var w0, u := Begin(Iom.NewOrder(Buy), "X", 10.0, 0, t), PaidIn("X", 10.0, 1.0);
    steps, w := GetsReady("X", 10.0, 1.0, t, th);
    PaidNine(u);
    steps, w := Engages(w0, steps, w, u, 9.0, t, th);
    EngageKeepsPaidIn(u, 9.0);
    FillsEight(w.solver, th);
    BookedFill(w, Iom.Engage(u, 9.0), t, th);
    steps, w := Next(w0, steps, w, Step.Fill(POSITIONS, ALL_OF_IT, 0), t, th);
    steps, w := Next(w0, steps, w, CompleteBatch(true), t, th);
    EngagedIsMinted(w, w.order.engagedUpdates[0], base);
    InvoicedLots(w, base);
  }

  lemma PaidNine(u: Iom.Update)
    requires u == PaidIn("X", 10.0, 1.0)
    ensures u.remaining == 9.0 && u.original == 10.0 && u.fee == 1.0 && u.id == "X"
    ensures Iom.Engage(u, 9.0).remaining == 0.0
  {
  }

  // To where the ledgers part

  function PartOf(s: BatchManagerSpec.State, id: string, i: nat): (step: Step)
    requires CanFill(s, id, i)
    ensures step.Fill?
  {
    Step.Fill(s.batches[id].positions, s.engagements[id].orders[i], s.batches[id].timestamp)
  }

  /** The first fill of the batch, with nothing executed yet. */
  lemma FillsNothing(w: World, u: Iom.Update, t: real, th: Thresholds)
    requires Queued(w, u) && u.engaged.Some? && w.order.engaged.Some? && w.live
    requires w.solver == BatchReports.ENGAGED && BatchReports.Low(th)
    ensures var step := Step.Fill(map[BatchReports.KEY := BatchReports.NEW], BatchReports.Part(0.0, 100.0), 0);
      var w' := Apply(w, step, t, th);
      && Legal(w, step, t, th) && Queued(w', u) && w'.order.engaged.Some? && w' == w.(order := w'.order)
  {
    hide FillIndexOrder, BatchReports.Part;
    BatchReports.IsEngaged();
    assert BatchReports.Part(0.0, 100.0) == BatchReports.Part(0.0, BatchReports.Part(0.0, 100.0).collateral) by {
      CollateralOf(0.0, 100.0);
    }
    BatchReports.FillsNothing(BatchReports.Part(0.0, 100.0), w.solver, th);
    assert Iom.FindUpdate([u], w.id) == 0;
    assert [u][0 := Iom.FillUpdate(u, 0.0, 0.0)] == [u];
  }

  lemma CollateralOf(filled: real, collateral: real)
    ensures BatchReports.Part(filled, collateral).collateral == collateral
    ensures BatchReports.Part(filled, collateral).order == "X"
  {
  }

  /** Half of the order is engaged in a batch that completes without a lot. */
  lemma GoesOn(t: real, th: Thresholds) returns (steps: seq<Step>, w: World, u: Iom.Update)
    requires t == 0.0 && BatchReports.Low(th)
    ensures Reaches(Begin(Iom.NewOrder(Buy), "X", 200.0, 0, t), steps, w, t, th)
    ensures w.solver == BatchReports.CARRIED && w.queued == 1 && w.engageAck.None? && w.collateralAck.None?
    ensures Queued(w, u) && u.remaining == 100.0 && u.engaged == Some(100.0)
  {
    hide Reaches, BatchReports.Low, BatchReports.Part, FillBoth, PaidIn, FillIndexOrder;
    var w0, paid := Begin(Iom.NewOrder(Buy), "X", 200.0, 0, t), PaidIn("X", 200.0, 0.0);
    steps, w := GetsReady("X", 200.0, 0.0, t, th);
    PaidTwoHundred(paid);
    steps, w := Engages(w0, steps, w, paid, 100.0, t, th);
    BatchReports.IsEngaged();
    u := Iom.Engage(paid, 100.0);
    FillsNothing(w, u, t, th);
    var fill := Step.Fill(map[BatchReports.KEY := BatchReports.NEW], BatchReports.Part(0.0, 100.0), 0);
    steps, w := Next(w0, steps, w, fill, t, th);
    steps, w := Next(w0, steps, w, CompleteBatch(false), t, th);
  }

  lemma PaidTwoHundred(u: Iom.Update)
    requires u == PaidIn("X", 200.0, 0.0)
    ensures u.remaining == 200.0 && u.engaged.None? && Ready(200.0, 0.0) == BatchReports.READY
    ensures Iom.Engage(u, 100.0).remaining == 100.0 && Iom.Engage(u, 100.0).engaged == Some(100.0)
  {
  }

  /** What the late fill leaves: it is booked, and the update can be engaged again. */
  lemma LateFillIsBooked(w: World, u: Iom.Update, e: Engagement, t: real, th: Thresholds)
    requires t == 0.0 && BatchReports.Low(th) && BatchReports.Unspent(w.solver) && Queued(w, u) && 0 < w.queued
    requires u.remaining == 100.0 && e == BatchReports.Part(0.0, e.collateral)
    ensures var positions := map[BatchReports.KEY := BatchReports.WithFive()];
      var f := FillIndexOrder(positions, e, w.solver, 0, th); var w1 := Apply(w, Step.Fill(positions, e, 0), t, th);
      && f.error.None? && f.order == BatchReports.SpentFive(w.solver) == w1.solver && w1.queued == w.queued
      && w1.id == w.id && !Iom.FullyEngaged(w1.order, w1.id)
      && Iom.SolverEngageOne(w1.order, w1.id, 10.0, t) ==
           Iom.EngagedOne(Iom.SolverEngageOne(w1.order, w1.id, 10.0, t).order, 90.0, Some(0.0))
  {
    hide FillIndexOrder, BatchReports.WithFive, BatchReports.Part;
    BatchReports.FiveIn();
    BatchReports.FillsLate(e, BatchReports.WithFive(), w.solver, 0, th);
    assert Iom.FindUpdate([u], w.id) == 0;
  }

  lemma NothingMine(id: string)
    ensures IomTheory.Structured(Iom.NewOrder(Buy)) && Mine(Iom.NewOrder(Buy), id) == []
  {
  }

  lemma SameUpdateQueued(w: World, u: Iom.Update, v: Iom.Update)
    requires Queued(w, u) && Quiet(w, v)
    ensures v == u
  {
    BooksHold(w, v, 0.0);
    MineIsHeld(w, v);
    assert Iom.Those([u], w.id) == [u] && [u] + [] == [u];
    assert [u][0] == [v][0];
  }

  function LateStep(): Step {
    Step.Fill(map[BatchReports.KEY := BatchReports.WithFive()], BatchReports.Part(0.0, 100.0), 0)
  }

  function ThreeMore(w: World, late: Step, t: real, th: Thresholds): World {
    Apply(Apply(Apply(w, late, t, th), Request(10.0), t, th), DeliverEngageAck(0), t, th)
  }

  /** The late fill, a request that fits, and the order manager's answer. */
  lemma LedgersPart(w: World, u: Iom.Update, late: Step, t: real, th: Thresholds)
    requires t == 0.0 && BatchReports.Low(th) && BatchReports.Unspent(w.solver) && Queued(w, u) && 0 < w.queued
    requires u.remaining == 100.0 && Quiet(w, u) && late == LateStep()
    ensures var w' := ThreeMore(w, late, t, th);
      && w'.solver == BatchManagerSpec.Engage(BatchReports.SpentFive(w.solver), Confirmation(10.0, 90.0), 0)
      && |Mine(w'.order, w'.id)| == 1
      && var u' := Mine(w'.order, w'.id)[0];
         !Agree(w'.solver, u') && DifferBy(w'.solver, u', IN_STEP.(engaged := 5.0))
  {
    hide BatchReports.WithFive, BatchReports.Part, FillBoth, Iom.SolverEngageOne, FillIndexOrder, Quiet, Agree,
      DifferBy, Mine, Iom.FullyEngaged;
    CollateralOf(0.0, 100.0);
    LateFillIsBooked(w, u, late.e, t, th);
    LateFillPartsLedgers(w, u, late.positions, late.e, 0, 10.0, t, th);
  }

  /** Two runs of the same order, in the two ledgers and in the batches: it is engaged for half of what was paid in, and
      its batch completes without a lot. Then five are executed late and handed out, and the order is engaged again. The
      solver now has five more engaged than the order manager. */
  lemma LateFillLeavesStep(t: real, c: BatchManagerSpec.Config)
    returns (steps: seq<Step>, first: seq<BatchRuns.Step>, s: State, s': State)
    requires t == 0.0 && BatchReports.Low(c.th)
    ensures BatchReports.Reaches(first, s, c) && CanFill(s, "M", 0) && "X" in s.orders && "X" in s'.orders
    ensures BatchReports.Reaches(first + [BatchRuns.FillNext("M", 0)] + BatchReports.UpToSecond(), s', c)
    ensures var w0 := Begin(Iom.NewOrder(Buy), "X", 200.0, 0, t);
      var w, w' := Run(w0, steps, t, c.th), ThreeMore(Run(w0, steps, t, c.th), PartOf(s, "M", 0), t, c.th);
      && LegalRun(w0, steps, t, c.th) && w.solver == s.orders["X"] && w'.solver == s'.orders["X"]
      && |Mine(w'.order, w'.id)| == 1
      && var u := Mine(w'.order, w'.id)[0];
         !Agree(w'.solver, u) && DifferBy(w'.solver, u, IN_STEP.(engaged := 5.0))
  {
    hide LegalRun, Run, BatchReports.Reaches, BatchReports.Reports, BatchReports.Reported, BatchReports.Low, Begin,
      BatchReports.WithFive, BatchReports.Part, FillIndexOrder, Apply, Mine, IomTheory.Structured, Agree, DifferBy,
      ThreeMore, BatchReports.SpentFive, BatchReports.Unspent, Quiet, Queued, BatchManagerSpec.Engage;
    var w, u, rest, s1;
    steps, w, u := GoesOn(t, c.th);
    first, s := BatchReports.UpToFirst(c);
    CollateralOf(0.0, 100.0);
    BatchReports.AtKeys(s, "M", BatchReports.WithFive(), BatchReports.Part(0.0, 100.0), BatchReports.CARRIED);
    BatchReports.IsLate(w.solver);
    rest, s1 := BatchReports.LateFill(first, s, BatchReports.WithFive(), BatchReports.Part(0.0, 100.0), w.solver, c);
    rest, s' := BatchReports.NextBatch(rest, s1, c);
    NothingMine("X");
    var v := LegalRunsStayQuiet(Iom.NewOrder(Buy), "X", 200.0, 0, steps, t, c.th);
    SameUpdateQueued(w, u, v);
    LedgersPart(w, u, PartOf(s, "M", 0), t, c.th);
    BatchReports.IsEngaged();
  }

  /** Two runs of the same order: all of it is engaged, and its batch completes with a lot of one asset, which is
      carried over. Then a lot of the other asset is executed late. The fill hands that one out, runs short of the first
      one and books nothing: the ledgers are not in step any more. */
  lemma ShortFillLeavesStep(t: real, c: BatchManagerSpec.Config)
    returns (steps: seq<Step>, batchSteps: seq<BatchRuns.Step>, late: BatchRuns.Step, s: State)
    requires 0.0 <= t && 0.0 <= c.th.zero < 10.0
    ensures BatchSafety.LegalRun(batchSteps, c) && late.Execute? && s == BatchRuns.Run(batchSteps + [late], c)
    ensures CanFill(s, "N", 1) && "Y" in s.orders
    ensures var w0 := Begin(Iom.NewOrder(Buy), "Y", 200.0, 0, t); var w := Run(w0, steps, t, c.th);
      var w' := Apply(w, PartOf(s, "N", 1), t, c.th);
      && LegalRun(w0, steps, t, c.th) && w.solver == s.orders["Y"]
      && (exists u :: InStep(w, u)) && !exists u' :: InStep(w', u')
  {
    hide LegalRun, Run, FillIndexOrder, Apply, Begin, InStep, Mine, IomTheory.Structured, CostOf,
      BatchSafety.LegalRun, BatchRuns.Run, BatchFillTheory.RunsShort;
    var r, w;
    steps, w := AllCarried(t, c.th);
    r, late := BatchShortage.LateExecutionRunsShort(c);
    batchSteps, s := r.steps, BatchRuns.Run(r.steps + [late], c);
    NothingMine("Y");
    var u := LegalRunsStayQuiet(Iom.NewOrder(Buy), "Y", 200.0, 0, steps, t, c.th);
    assert w.solver == s.orders["Y"] == BatchShortage.CARRIED;
    TenHandedOut(s.batches["N"].positions, BatchShortage.EATER, w.solver, 0, c.th);
    FailedFillInStepExactly(w, u, s.batches["N"].positions, BatchShortage.EATER, 0, t, c.th);
  }

  lemma TenHandedOut(positions: Positions, e: Engagement, o: SolverOrder, now: int, th: Thresholds)
    requires o.lots == []
    ensures HandedOut(positions, e, o, now, th) == FillIndexOrder(positions, e, o, now, th).order.lots
  {
  }

  lemma AllCarried(t: real, th: Thresholds) returns (steps: seq<Step>, w: World)
    requires 0.0 <= t
    ensures Reaches(Begin(Iom.NewOrder(Buy), "Y", 200.0, 0, t), steps, w, t, th)
    ensures w.solver == BatchShortage.CARRIED
  {
    hide Reaches, PaidIn, Begin, Queued, Ready, BatchManagerSpec.Engage, FillIndexOrder, Iom.Engage;
    var w0, paid := Begin(Iom.NewOrder(Buy), "Y", 200.0, 0, t), PaidIn("Y", 200.0, 0.0);
    steps, w := GetsReady("Y", 200.0, 0.0, t, th);
    AllPaid(paid);
    steps, w := Engages(w0, steps, w, paid, 200.0, t, th);
    steps, w := Next(w0, steps, w, CompleteBatch(false), t, th);
  }

  lemma AllPaid(u: Iom.Update)
    requires u == PaidIn("Y", 200.0, 0.0)
    ensures u.remaining == 200.0
    ensures BatchManagerSpec.Engage(Ready(200.0, 0.0), Confirmation(200.0, 0.0), 0) == BatchShortage.ENGAGED
  {
  }
}
