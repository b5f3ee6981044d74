/** One index order in two ledgers: the order manager's update and the solver's order, kept in step by messages. */
module OrderProtocol {
  import opened Common
  import opened BatchLots
  import opened BatchFillSpec
  import opened BatchManagerSpec
  import Iom = IndexOrderSpec
  import IomTheory = IndexOrderTheory

  /** The collateral manager's answer to a preauthorization; after a failure the order manager is not called. */
  datatype PreAuthAnswer = Approved(paymentId: string) | NotEnoughFunds | PreAuthFailed

  /** What the order manager tells the solver once routing fees are charged. */
  datatype CollateralAck = CollateralAck(remaining: real, spent: real)

  /** `queued` says how often the order stands among those ready to be engaged, `live` that it is in a running batch.
      `acked` and `readied` record the two-event handshake for specifications. */
  datatype World = World(
    id: string,
    order: Iom.Order,
    solver: SolverOrder,
    collateralAck: Option<CollateralAck>,
    preAuth: Option<string>,
    engageAck: Option<Confirmation>,
    queued: nat,
    live: bool,
    routed: bool,
    acked: bool,
    readied: nat)

  // The handshake: both events find the order waiting or already marked ready by the other one

  /** The order manager acknowledged the collateral. */
  function HandleCollateralAck(w: World, ack: CollateralAck, now: int): World {
    var o := w.solver.(spent := ack.spent, remaining := ack.remaining, timestamp := now);
    MarkReady(w.(solver := o, collateralAck := None, acked := true))
  }

  /** The payment was authorized; a second authorization replaces the ID and fails. */
  function HandlePreAuth(w: World, paymentId: string): World {
    var o := w.solver.(paymentId := Some(paymentId));
    if w.solver.paymentId.Some? then w.(solver := o, preAuth := None)
    else MarkReady(w.(solver := o, preAuth := None))
  }

  function MarkReady(w: World): World {
    if w.solver.status.Ready? then w.(queued := w.queued + 1, readied := w.readied + 1)
    else w.(solver := w.solver.(status := Ready))
  }

  // Steps

  datatype Step =
    | ManageCollateral
    | Route(amount: real, fee: real, answer: PreAuthAnswer)
    | DeliverCollateralAck(now: int)
    | DeliverPreAuth
    | Request(amount: real)
    | DeliverEngageAck(now: int)
    | Fill(positions: Positions, e: Engagement, now: int)
    | CompleteBatch(promote: bool)
    | Other(op: IomTheory.Op)

  /** Collateral reached the trading accounts: the payment is preauthorized and the order manager charges the fee. */
  function RouteCollateral(w: World, amount: real, fee: real, answer: PreAuthAnswer, t: real): World {
    var preAuth := if answer.Approved? then Some(answer.paymentId) else None;
    var w' := w.(solver := w.solver.(routed := amount), preAuth := preAuth, routed := true);
    var o := Iom.CollateralReady(w.order, w.id, amount, fee, t);
    if answer.PreAuthFailed? || o.None? then w'
    else
      var u := w.order.updates[Iom.FindUpdate(w.order.updates, w.id)];
      w'.(order := o.value, collateralAck := Some(CollateralAck(u.remaining - fee, u.spent + fee)))
  }

  /** The solver takes the order out of the queue and asks the order manager to engage the new collateral. */
  function RequestEngagement(w: World, amount: real, t: real): World
    requires 0 < w.queued
  {
    var w' := w.(queued := w.queued - 1);
    var e := Iom.SolverEngageOne(w.order, w.id, amount, t);
    if e.EngageFailed? then w'
    else w'.(order := e.order, engageAck := Some(Confirmation(amount - OrZero(e.unmatched), e.remaining)))
  }

  /** A fill that spends something is reported to the order manager at once. */
  function FillBoth(w: World, positions: Positions, e: Engagement, now: int, th: Thresholds): World {
    var f := FillIndexOrder(positions, e, w.solver, now, th);
    var w' := w.(solver := f.order);
    if f.request.None? then w'
    else
      var o := Iom.FillOrder(w.order, w.id, f.request.value.spent, f.request.value.quantity);
      if o.None? then w' else w'.(order := o.value)
  }

  function CompleteLive(w: World, promote: bool): World {
    var o := if promote && w.solver.status.PartlyMintable? then w.solver.(status := FullyMintable) else w.solver;
    if Continues(o) then w.(solver := Carry(o), queued := w.queued + 1, live := false)
    else w.(solver := o, live := false)
  }

  function Apply(w: World, step: Step, t: real, th: Thresholds): World {
    match step
    case ManageCollateral => w.(solver := w.solver.(status := Status.ManageCollateral))
    case Route(amount, fee, answer) => RouteCollateral(w, amount, fee, answer, t)
    case DeliverCollateralAck(now) =>
      if w.collateralAck.Some? then HandleCollateralAck(w, w.collateralAck.value, now) else w
    case DeliverPreAuth => if w.preAuth.Some? then HandlePreAuth(w, w.preAuth.value) else w
    case Request(amount) => if 0 < w.queued then RequestEngagement(w, amount, t) else w
    case DeliverEngageAck(now) =>
      if w.engageAck.Some?
      then w.(solver := Engage(w.solver, w.engageAck.value, now), engageAck := None, live := true)
      else w
    case Fill(positions, e, now) => FillBoth(w, positions, e, now, th)
    case CompleteBatch(promote) => CompleteLive(w, promote)
    case Other(op) => w.(order := IomTheory.Apply(w.order, op, t))
  }

  /** A user's order arrives on the side of the order manager's order, which pushes an update. */
  function Begin(order: Iom.Order, id: string, amount: real, now: int, t: real): World {
    World(id, Iom.UpdateOrder(order, id, order.side, amount, t).0,
          SolverOrder(order.side, amount, 0.0, 0.0, 0.0, 0.0, 0.0, now, Status.Open, None, []),
          None, None, None, 0, false, false, false, 0)
  }
}
