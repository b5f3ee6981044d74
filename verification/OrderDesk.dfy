/** One order as the solver handles its events: each handler is proved to be a step of the protocol. */
module OrderDesk {
  import opened Common
  import opened BatchLots
  import opened BatchFillSpec
  import opened BatchManagerSpec
  import opened OrderProtocol
  import opened IndexOrder
  import Iom = IndexOrderSpec

  class Desk {
    const id: string
    const order: IndexOrder
    const tolerance: real
    const thresholds: Thresholds
    var solver: SolverOrder
    var collateralAck: Option<CollateralAck>
    var preAuth: Option<string>
    var engageAck: Option<Confirmation>
    var queued: nat
    var live: bool
    var routed: bool
    ghost var acked: bool
    ghost var readied: nat

    ghost function Content(): World
      reads this, order
    {
      World(id, order.State(), solver, collateralAck, preAuth, engageAck, queued, live, routed, acked, readied)
    }

    constructor (order: IndexOrder, id: string, amount: real, now: int, tolerance: real, thresholds: Thresholds)
      modifies order
      ensures this.order == order && this.tolerance == tolerance && this.thresholds == thresholds
      ensures Content() == Begin(old(order.State()), id, amount, now, tolerance)
    {
      this.order, this.id, this.tolerance, this.thresholds := order, id, tolerance, thresholds;
      solver := SolverOrder(order.side, amount, 0.0, 0.0, 0.0, 0.0, 0.0, now, Status.Open, None, []);
      collateralAck, preAuth, engageAck := None, None, None;
      queued, live, routed, acked, readied := 0, false, false, false, 0;
      new;
      var _ := order.UpdateOrder(id, order.side, amount, tolerance);
    }

    method ManageCollateral()
      modifies this
      ensures Content() == Apply(old(Content()), Step.ManageCollateral, tolerance, thresholds)
    {
      solver := solver.(status := Status.ManageCollateral);
    }

    /** Routed collateral is ready: the collateral manager's answer is on its way, and so is the order manager's if it
        accepts. When the preauthorization fails the order manager is not asked. */
    method HandleCollateralReady(amount: real, fee: real, answer: PreAuthAnswer)
      modifies this, order
      ensures Content() == Apply(old(Content()), Route(amount, fee, answer), tolerance, thresholds)
    {
      hide FillBoth, RequestEngagement, HandlePreAuth, HandleCollateralAck, CompleteLive;
      solver := solver.(routed := amount);
      preAuth, routed := if answer.Approved? then Some(answer.paymentId) else None, true;
      if answer.PreAuthFailed? {
        return;
      }
      var i := Iom.FindUpdate(order.orderUpdates, id);
      var before := order.orderUpdates;
      var ok := order.CollateralReady(id, amount, fee, tolerance);
      if ok {
        collateralAck := Some(CollateralAck(before[i].remaining - fee, before[i].spent + fee));
      }
    }

    /** The order manager acknowledged the collateral. */
    method HandleCollateralAcknowledged(now: int)
      modifies this
      ensures Content() == Apply(old(Content()), DeliverCollateralAck(now), tolerance, thresholds)
    {
      if collateralAck.None? {
        return;
      }
      var ack := collateralAck.value;
      collateralAck, acked := None, true;
      solver := solver.(spent := ack.spent, remaining := ack.remaining, timestamp := now);
      EnterQueue();
    }

    method HandlePreAuthApproved() returns (ok: bool)
      modifies this
      ensures Content() == Apply(old(Content()), DeliverPreAuth, tolerance, thresholds)
      ensures ok <==> old(preAuth).None? || old(solver).paymentId.None?
    {
      if preAuth.None? {
        return true;
      }
      var first := solver.paymentId.None?;
      solver := solver.(paymentId := preAuth);
      preAuth := None;
      if !first {
        return false;
      }
      EnterQueue();
      ok := true;
    }

    /** The second of the two events finds the order ready. */
    method EnterQueue()
      modifies this
      ensures Content() == OrderProtocol.MarkReady(old(Content()))
    {
      if solver.status.Ready? {
        queued, readied := queued + 1, readied + 1;
      } else {
        solver := solver.(status := Ready);
      }
    }

    method EngageMore(amount: real)
      modifies this, order
      ensures Content() == Apply(old(Content()), Request(amount), tolerance, thresholds)
    {
      if queued == 0 {
        return;
      }
      queued := queued - 1;
      var engaged := order.SolverEngageOne(id, amount, tolerance);
      if engaged.Some? {
        var (remaining, unmatched) := engaged.value;
        engageAck := Some(Confirmation(if unmatched.Some? then amount - unmatched.value else amount, remaining));
      }
    }

    method HandleEngaged(now: int)
      modifies this
      ensures Content() == Apply(old(Content()), DeliverEngageAck(now), tolerance, thresholds)
    {
      if engageAck.Some? {
        solver := Engage(solver, engageAck.value, now);
        engageAck, live := None, true;
      }
    }

    /** The batch manager fills the order and reports it at once; false is the error return. */
    method HandleFill(positions: Positions, e: Engagement, now: int) returns (ok: bool)
      modifies this, order
      ensures Content() == Apply(old(Content()), Step.Fill(positions, e, now), tolerance, thresholds)
    {
      hide FillIndexOrder;
      var f := FillIndexOrder(positions, e, solver, now, thresholds);
      solver := f.order;
      ok := f.error.None?;
      if f.request.Some? {
        var request := f.request.value;
        ok := order.FillOrderRequest(id, request.spent, request.quantity);
      }
    }

    method HandleBatchComplete(promote: bool)
      modifies this
      ensures Content() == Apply(old(Content()), CompleteBatch(promote), tolerance, thresholds)
    {
      live := false;
      if promote && solver.status.PartlyMintable? {
        solver := solver.(status := FullyMintable);
      }
      if Continues(solver) {
        solver := Carry(solver);
        queued := queued + 1;
      }
    }
  }
}
