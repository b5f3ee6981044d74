/** What each message does to one order in the two ledgers, and that what is told is what happened. */
module OrderAnswers {
  import opened Common
  import opened BatchLots
  import opened BatchFillSpec
  import opened BatchManagerSpec
  import opened OrderProtocol
  import opened UpdateLedger
  import Iom = IndexOrderSpec
  import IndexOrderAnswers

  /** Routed collateral is noted on the order. The order manager is asked unless the preauthorization fails, and when it
      charges the fee, the solver is told what the charged update has left and has spent. */
  lemma RouteTells(w: World, amount: real, fee: real, answer: PreAuthAnswer, t: real, th: Thresholds)
    returns (i: nat)
    ensures var w' := Apply(w, Route(amount, fee, answer), t, th);
      && w' == w.(order := w'.order, solver := w.solver.(routed := amount), collateralAck := w'.collateralAck,
                  preAuth := w'.preAuth, routed := true)
      && w'.preAuth == (if answer.Approved? then Some(answer.paymentId) else None)
      && i <= |w.order.updates| && (forall j :: 0 <= j < i ==> w.order.updates[j].id != w.id)
      && (i < |w.order.updates| ==> w.order.updates[i].id == w.id)
      && var charged :=
           !answer.PreAuthFailed? && i < |w.order.updates| && w.order.updates[i].remaining - fee >= amount - t;
         && (!charged ==> w'.order == w.order && w'.collateralAck == w.collateralAck)
         && (charged ==>
               && |w'.order.updates| == |w.order.updates|
               && w'.collateralAck == Some(CollateralAck(w'.order.updates[i].remaining, w'.order.updates[i].spent))
               && w'.order.updates[i].fee - w.order.updates[i].fee == fee
               && w.order.updates[i].remaining - w'.order.updates[i].remaining == fee
               && w'.order.updates[i].spent - w.order.updates[i].spent == fee)
  {
    i := IndexOrderAnswers.ReadyExactly(w.order, w.id, amount, fee, t);
  }

  /** The acknowledged amounts are taken over. The second of the two events finds the order ready and queues it. */
  lemma AcknowledgementTakenOver(w: World, now: int, t: real, th: Thresholds)
    ensures var w' := Apply(w, DeliverCollateralAck(now), t, th);
      && (w.collateralAck.None? ==> w' == w)
      && (w.collateralAck.Some? ==>
            && w' == w.(solver := w'.solver, collateralAck := None, queued := w'.queued, acked := true,
                        readied := w'.readied)
            && w'.solver == w.solver.(spent := w.collateralAck.value.spent,
                                      remaining := w.collateralAck.value.remaining, timestamp := now, status := Ready)
            && w'.queued - w.queued == w'.readied - w.readied == if w.solver.status.Ready? then 1 else 0)
  {
  }

  /** The order pays with the payment that was authorized last, but only the first authorization can ready it. */
  lemma AuthorizationTakenOver(w: World, t: real, th: Thresholds)
    ensures var w' := Apply(w, DeliverPreAuth, t, th);
      && (w.preAuth.None? ==> w' == w)
      && (w.preAuth.Some? ==>
            var first := w.solver.paymentId.None?;
            && w' == w.(solver := w'.solver, preAuth := None, queued := w'.queued, readied := w'.readied)
            && w'.solver == w.solver.(paymentId := w.preAuth, status := if first then Ready else w.solver.status)
            && w'.queued - w.queued == w'.readied - w.readied == if first && w.solver.status.Ready? then 1 else 0)
  {
  }

  /** The order leaves the queue. What the solver is told was engaged is what the order gave up of its remaining
      collateral, and what remains is what the update has left, unless it was fully engaged before. */
  lemma RequestTells(w: World, amount: real, t: real, th: Thresholds)
    requires 0 < w.queued
    ensures var w' := Apply(w, Request(amount), t, th);
      var again := w.order.engagedUpdates != [] && w.order.engagedUpdates[|w.order.engagedUpdates| - 1].id == w.id;
      var front := w.order.updates != [] && w.order.updates[0].id == w.id;
      && w' == w.(order := w'.order, queued := w.queued - 1, engageAck := w'.engageAck)
      && ((if again then t <= amount else !front) ==> w'.order == w.order && w'.engageAck == w.engageAck)
      && (!(if again then t <= amount else !front) ==>
            && w'.engageAck.Some?
            && w'.engageAck.value.engaged == w.order.remaining - w'.order.remaining
            && w'.engageAck.value.remaining ==
                 if again then 0.0
                 else w.order.updates[0].remaining
                      - if amount <= w.order.updates[0].remaining then amount else w.order.updates[0].remaining)
  {
    IndexOrderAnswers.EngageOneExactly(w.order, w.id, amount, t);
    hide Iom.SolverEngageOne;
  }

  /** The answer replaces what was engaged, together with what was carried over, and readies the order for filling. */
  lemma AnswerTakenOver(w: World, now: int, t: real, th: Thresholds)
    ensures var w' := Apply(w, DeliverEngageAck(now), t, th);
      && (w.engageAck.None? ==> w' == w)
      && (w.engageAck.Some? ==>
            && w' == w.(solver := w'.solver, engageAck := None, live := true)
            && w'.solver == w.solver.(engaged := w'.solver.engaged, remaining := w.engageAck.value.remaining,
                                      carried := 0.0, timestamp := now, status := w'.solver.status)
            && w'.solver.engaged - w.solver.carried == w.engageAck.value.engaged
            && w'.solver.status == if w.solver.status.Ready? then Engaged else w.solver.status)
  {
  }

  /** A partly mintable order that is due becomes fully mintable. Any other one that was being filled is queued again
      with its engaged collateral set aside. */
  lemma CompletionContinues(w: World, promote: bool, t: real, th: Thresholds)
    ensures var w' := Apply(w, CompleteBatch(promote), t, th);
      var goesOn := w.solver.status.Engaged? || (w.solver.status.PartlyMintable? && !promote);
      && w' == w.(solver := w'.solver, queued := w.queued + (if goesOn then 1 else 0), live := false)
      && w'.solver == w.solver.(
           status := if promote && w.solver.status.PartlyMintable? then FullyMintable else w.solver.status,
           carried := if goesOn then w.solver.engaged else w.solver.carried,
           engaged := if goesOn then 0.0 else w.solver.engaged)
  {
  }
}
