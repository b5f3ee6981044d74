/** The mutable index order: each method is proved to do what its operation says. */
module IndexOrder {
  import opened Common
  import Spec = IndexOrderSpec
  import opened IndexOrderSpec

  // A cancel when some updates were already closed

  function LaterCancel(closed: seq<Update>, m: CancelMatch): CancelMatch {
    m.(closed := closed + m.closed)
  }

  /** The queue with its back update replaced. */
  function Kept(q: seq<Update>, back: Option<Update>): seq<Update> {
    if back.None? || q == [] then q else q[..|q| - 1] + [back.value]
  }

  lemma CancelStep(closed: seq<Update>, q: seq<Update>, amount: real, t: real)
    requires q != []
    ensures var last, front := q[|q| - 1], q[..|q| - 1];
      var rest := last.remaining - amount;
      LaterCancel(closed, MatchCancel(q, amount, t)) ==
        if rest >= t then CancelMatch(front + [last.(remaining := rest)], [], closed, None)
        else if last.engaged.Some? then CancelMatch(front, [last.(remaining := 0.0)], closed, Some(-rest))
        else if rest < -t then LaterCancel(closed + [last], MatchCancel(front, -rest, t))
        else CancelMatch(front, [], closed + [last], None)
  {
    var last, front := q[|q| - 1], q[..|q| - 1];
    var rest := last.remaining - amount;
    assert closed + [] == closed;
    if rest < t && last.engaged.None? && rest < -t {
      var m := MatchCancel(front, -rest, t);
      assert closed + ([last] + m.closed) == closed + [last] + m.closed;
    }
  }

  lemma CancelEnds(closed: seq<Update>, amount: real, t: real)
    ensures LaterCancel(closed, MatchCancel([], amount, t)) == CancelMatch([], [], closed, Some(amount))
  {
    assert closed + [] == closed;
  }

  lemma NothingCancelled(m: CancelMatch)
    ensures LaterCancel([], m) == m
  {
    assert [] + m.closed == m.closed;
  }

  // An engagement when some updates were already engaged

  function LaterEngage(engaged: seq<Update>, m: EngageMatch): EngageMatch {
    m.(engaged := engaged + m.engaged)
  }

  /** The queue with its front update replaced. */
  function Left(q: seq<Update>, front: Option<Update>): seq<Update> {
    if front.None? || q == [] then q else [front.value] + q[1..]
  }

  lemma EngageStep(engaged: seq<Update>, q: seq<Update>, amount: real, t: real)
    requires q != []
    ensures var rest := q[0].remaining - amount;
      var full := q[0].(engaged := PlusSome(q[0].engaged, q[0].remaining), remaining := 0.0);
      LaterEngage(engaged, MatchEngage(q, amount, t)) ==
        if rest >= t then
          EngageMatch([q[0].(engaged := PlusSome(q[0].engaged, amount), remaining := rest)] + q[1..], engaged, None)
        else if rest < -t then LaterEngage(engaged + [full], MatchEngage(q[1..], -rest, t))
        else EngageMatch(q[1..], engaged + [full], None)
  {
    var rest := q[0].remaining - amount;
    assert engaged + [] == engaged;
    if rest < t && rest < -t {
      var m := MatchEngage(q[1..], -rest, t);
      var full := Engage(q[0], q[0].remaining);
      assert engaged + ([full] + m.engaged) == engaged + [full] + m.engaged;
    }
  }

  lemma EngageEnds(engaged: seq<Update>, amount: real, t: real)
    ensures LaterEngage(engaged, MatchEngage([], amount, t)) == EngageMatch([], engaged, Some(amount))
  {
    assert engaged + [] == engaged;
  }

  lemma NothingEngaged(m: EngageMatch)
    ensures LaterEngage([], m) == m
  {
    assert [] + m.engaged == m.engaged;
  }

  class IndexOrder {
    var side: Side
    var remainingCollateral: real
    var engagedSide: Option<Side>
    var engagedCollateral: Option<real>
    var collateralSpent: real
    var filledQuantity: real
    var fees: real
    var orderUpdates: seq<Update>
    var engagedUpdates: seq<Update>
    var closedUpdates: seq<Update>

    function State(): Order
      reads this
    {
      Order(side, remainingCollateral, engagedSide, engagedCollateral, collateralSpent, filledQuantity, fees,
            orderUpdates, engagedUpdates, closedUpdates)
    }

    constructor (side: Side)
      ensures State() == NewOrder(side)
    {
      this.side := side;
      remainingCollateral, collateralSpent, filledQuantity, fees := 0.0, 0.0, 0.0, 0.0;
      engagedSide, engagedCollateral := None, None;
      orderUpdates, engagedUpdates, closedUpdates := [], [], [];
    }

    constructor FromState(o: Order)
      ensures State() == o
    {
      side, remainingCollateral, engagedSide, engagedCollateral := o.side, o.remaining, o.engagedSide, o.engaged;
      collateralSpent, filledQuantity, fees := o.spent, o.filled, o.fees;
      orderUpdates, engagedUpdates, closedUpdates := o.updates, o.engagedUpdates, o.closedUpdates;
    }

    /** Matches from the back of the queue; the queues change only once the scan is over. */
    method MatchCancel(amount: real, t: real) returns (result: Option<real>)
      modifies this`orderUpdates, this`engagedUpdates, this`closedUpdates
      ensures State() == AfterCancel(old(State()), Spec.MatchCancel(old(orderUpdates), amount, t))
      ensures result == Spec.MatchCancel(old(orderUpdates), amount, t).unmatched
    {
      hide Spec.MatchCancel, LaterCancel;
      var collateral := amount;
      var backUpdate: Option<Update> := None;
      var drain := 0;
      var newClosed, newEngaged := [], [];
      var stop := false;
      ghost var whole := Spec.MatchCancel(orderUpdates, amount, t);
      result := Some(collateral);
      NothingCancelled(whole);
      assert orderUpdates[..|orderUpdates|] == orderUpdates;
      while drain < |orderUpdates| && !stop
        invariant State() == old(State())
        invariant drain <= |orderUpdates|
        invariant backUpdate.Some? ==> stop && drain < |orderUpdates|
        invariant !stop ==> newEngaged == [] && result == Some(collateral)
        invariant !stop ==>
          whole == LaterCancel(newClosed, Spec.MatchCancel(orderUpdates[..|orderUpdates| - drain], collateral, t))
        invariant stop ==>
          whole == CancelMatch(Kept(orderUpdates[..|orderUpdates| - drain], backUpdate), newEngaged, newClosed, result)
        decreases |orderUpdates| - drain, !stop
      {
        ghost var q := orderUpdates[..|orderUpdates| - drain];
        var update := orderUpdates[|orderUpdates| - drain - 1];
        assert q[|q| - 1] == update && q[..|q| - 1] == orderUpdates[..|orderUpdates| - (drain + 1)];
        CancelStep(newClosed, q, collateral, t);
        var futureRemaining := update.remaining - collateral;
        if futureRemaining < t {
          if update.engaged.Some? {
            newEngaged := [update.(remaining := 0.0)];
            drain, result, stop := drain + 1, Some(-futureRemaining), true;
          } else {
            newClosed := newClosed + [update];
            drain := drain + 1;
            if futureRemaining < -t {
              collateral := -futureRemaining;
              result := Some(collateral);
            } else {
              result, stop := None, true;
            }
          }
        } else {
          backUpdate, result, stop := Some(update.(remaining := futureRemaining)), None, true;
        }
      }
      CancelEnds(newClosed, collateral, t);
      assert !stop ==> orderUpdates[..|orderUpdates| - drain] == [];
      var kept := orderUpdates[..|orderUpdates| - drain];
      orderUpdates := if backUpdate.Some? then kept[..|kept| - 1] + [backUpdate.value] else kept;
      engagedUpdates := engagedUpdates + newEngaged;
      closedUpdates := closedUpdates + newClosed;
    }

    method UpdateOrder(id: string, side: Side, amount: real, t: real) returns (outcome: UpdateOutcome)
      modifies this
      ensures (State(), outcome) == Spec.UpdateOrder(old(State()), id, side, amount, t)
    {
      var update := NewUpdate(id, side, amount);
      if this.side.Opposite() == side {
        var unmatched := MatchCancel(amount, t);
        if unmatched.Some? {
          if engagedSide.Some? {
            remainingCollateral := 0.0;
            outcome := Reduce(amount - unmatched.value, remainingCollateral);
          } else {
            orderUpdates := orderUpdates + [update.(remaining := unmatched.value)];
            remainingCollateral := unmatched.value;
            this.side := side;
            outcome := Flip(side, unmatched.value);
          }
        } else {
          remainingCollateral := remainingCollateral - amount;
          outcome := Reduce(amount, remainingCollateral);
        }
      } else {
        remainingCollateral := remainingCollateral + amount;
        orderUpdates := orderUpdates + [update];
        outcome := Push(amount);
      }
    }

    /** Matches from the front of the queue; the queues change only once the scan is over. */
    method MatchEngage(amount: real, t: real) returns (result: Option<real>)
      modifies this`orderUpdates, this`engagedUpdates
      ensures var m := Spec.MatchEngage(old(orderUpdates), amount, t);
        && State() == old(State()).(updates := m.updates, engagedUpdates := old(engagedUpdates) + m.engaged)
        && result == m.unmatched
    {
      hide Spec.MatchEngage, LaterEngage;
      var collateral := amount;
      var frontUpdate: Option<Update> := None;
      var drain := 0;
      var newEngaged := [];
      var stop := false;
      ghost var whole := Spec.MatchEngage(orderUpdates, amount, t);
      result := Some(collateral);
      NothingEngaged(whole);
      while drain < |orderUpdates| && !stop
        invariant State() == old(State())
        invariant drain <= |orderUpdates|
        invariant frontUpdate.Some? ==> stop && drain < |orderUpdates|
        invariant !stop ==> result == Some(collateral)
        invariant !stop ==> whole == LaterEngage(newEngaged, Spec.MatchEngage(orderUpdates[drain..], collateral, t))
        invariant stop ==> whole == EngageMatch(Left(orderUpdates[drain..], frontUpdate), newEngaged, result)
        decreases |orderUpdates| - drain, !stop
      {
        var update := orderUpdates[drain];
        assert orderUpdates[drain..][0] == update && orderUpdates[drain..][1..] == orderUpdates[drain + 1..];
        EngageStep(newEngaged, orderUpdates[drain..], collateral, t);
        var futureRemaining := update.remaining - collateral;
        if futureRemaining < t {
          newEngaged := newEngaged + [update.(engaged := PlusSome(update.engaged, update.remaining), remaining := 0.0)];
          drain := drain + 1;
          if futureRemaining < -t {
            collateral := -futureRemaining;
            result := Some(collateral);
          } else {
            result, stop := None, true;
          }
        } else {
          frontUpdate := Some(update.(engaged := PlusSome(update.engaged, collateral), remaining := futureRemaining));
          result, stop := None, true;
        }
      }
      EngageEnds(newEngaged, collateral, t);
      assert !stop ==> orderUpdates[drain..] == [];
      assert frontUpdate.Some? ==> orderUpdates[drain..][1..] == orderUpdates[drain + 1..];
      orderUpdates :=
        if frontUpdate.Some? then [frontUpdate.value] + orderUpdates[drain + 1..] else orderUpdates[drain..];
      engagedUpdates := engagedUpdates + newEngaged;
    }

    method SolverEngage(amount: real, t: real) returns (unmatched: Option<real>)
      modifies this
      ensures (State(), unmatched) == Spec.SolverEngage(old(State()), amount, t)
    {
      unmatched := MatchEngage(amount, t);
      var engaged := if unmatched.Some? then amount - unmatched.value else amount;
      engagedCollateral := PlusSome(engagedCollateral, engaged);
      remainingCollateral := remainingCollateral - engaged;
      engagedSide := Some(side);
    }

    /** Engages the front update, which must be the one asked for; None is the error return. */
    method MatchEngageOne(id: string, amount: real, t: real) returns (r: Option<(real, Option<real>)>)
      modifies this`orderUpdates, this`engagedUpdates
      ensures var e := Spec.MatchEngageOne(old(State()), id, amount, t);
        if e.EngageFailed? then r == None && State() == old(State())
        else r == Some((e.remaining, e.unmatched)) && State() == e.order
    {
      if engagedUpdates != [] && engagedUpdates[|engagedUpdates| - 1].id == id {
        return if amount < t then Some((0.0, None)) else None;
      }
      if orderUpdates == [] || orderUpdates[0].id != id {
        return None;
      }
      var update := orderUpdates[0];
      var matched := Min(amount, update.remaining);
      var unmatched := amount - matched;
      var remaining := update.remaining - matched;
      update := update.(engaged := PlusSome(update.engaged, matched), remaining := remaining);
      if remaining < t {
        orderUpdates, engagedUpdates := orderUpdates[1..], engagedUpdates + [update];
      } else {
        orderUpdates := orderUpdates[0 := update];
      }
      r := Some((remaining, if unmatched < t then None else Some(unmatched)));
    }

    /** None is the error return; the order is then as before. */
    method SolverEngageOne(id: string, amount: real, t: real) returns (r: Option<(real, Option<real>)>)
      modifies this
      ensures var e := Spec.SolverEngageOne(old(State()), id, amount, t);
        if e.EngageFailed? then r == None && State() == old(State())
        else r == Some((e.remaining, e.unmatched)) && State() == e.order
    {
      hide Spec.MatchEngageOne;
      r := MatchEngageOne(id, amount, t);
      if r.Some? {
        var engaged := if r.value.1.Some? then amount - r.value.1.value else amount;
        engagedCollateral := PlusSome(engagedCollateral, engaged);
        remainingCollateral := remainingCollateral - engaged;
        engagedSide := Some(side);
      }
    }

    method SolverComplete(id: string) returns (ok: bool)
      modifies this
      ensures var c := Spec.SolverComplete(old(State()), id);
        ok == c.Some? && State() == if ok then c.value else old(State())
    {
      var i := FindUpdate(engagedUpdates, id);
      ok := i < |engagedUpdates|;
      if ok {
        closedUpdates, engagedUpdates := closedUpdates + [engagedUpdates[i]], engagedUpdates[..i]
            + engagedUpdates[i + 1..];
      }
    }

    method SolverCancel(id: string)
      modifies this
      ensures State() == Spec.SolverCancel(old(State()), id)
    {
      ghost var o := State();
      var kept, i := [], 0;
      while i < |orderUpdates|
        invariant i <= |orderUpdates|
        invariant Others(orderUpdates, id) == kept + Others(orderUpdates[i..], id)
        invariant closedUpdates + Those(orderUpdates[i..], id) == o.closedUpdates + Those(orderUpdates, id)
        invariant remainingCollateral - QueueTotal(Those(orderUpdates[i..], id))
            == o.remaining - QueueTotal(Those(orderUpdates, id))
        invariant State() == o.(closedUpdates := closedUpdates, remaining := remainingCollateral)
      {
        var update := orderUpdates[i];
        assert orderUpdates[i..][0] == update && orderUpdates[i..][1..] == orderUpdates[i + 1..];
        if update.id == id {
          closedUpdates := closedUpdates + [update];
          remainingCollateral := remainingCollateral - update.remaining;
          assert ([update] + Those(orderUpdates[i + 1..], id))[1..] == Those(orderUpdates[i + 1..], id);
        } else {
          kept := kept + [update];
        }
        i := i + 1;
      }
      orderUpdates := kept;
    }

    /** The order manager's part when routed collateral arrives. */
    method CollateralReady(id: string, collateral: real, fees: real, t: real) returns (ok: bool)
      modifies this
      ensures var r := Spec.CollateralReady(old(State()), id, collateral, fees, t);
        ok == r.Some? && State() == if ok then r.value else old(State())
    {
      var i := FindUpdate(orderUpdates, id);
      if i == |orderUpdates| {
        return false;
      }
      var update := orderUpdates[i];
      var updateRemaining := update.remaining - fees;
      if updateRemaining < collateral - t {
        return false;
      }
      orderUpdates := orderUpdates[i :=
        update.(spent := update.spent + fees, fee := update.fee + fees, remaining := updateRemaining)];
      remainingCollateral := remainingCollateral - fees;
      collateralSpent := collateralSpent + fees;
      this.fees := this.fees + fees;
      ok := true;
    }

    /** The order manager's part when the batch manager fills the order. */
    method FillOrderRequest(id: string, spent: real, quantity: real) returns (ok: bool)
      modifies this
      ensures var f := Spec.FillOrder(old(State()), id, spent, quantity);
        ok == f.Some? && State() == if ok then f.value else old(State())
    {
      var p := FindEngaged(State(), id);
      if p.Nowhere? || engagedCollateral.None? {
        return false;
      }
      var update := if p.AtFront? then orderUpdates[0] else engagedUpdates[p.i];
      if update.engaged.None? {
        return false;
      }
      update := update.(filled := update.filled + quantity, spent := update.spent + spent,
                        engaged := Some(update.engaged.value - spent));
      if p.AtFront? {
        orderUpdates := orderUpdates[0 := update];
      } else {
        engagedUpdates := engagedUpdates[p.i := update];
      }
      filledQuantity := filledQuantity + quantity;
      collateralSpent := collateralSpent + spent;
      engagedCollateral := Some(engagedCollateral.value - spent);
      ok := true;
    }

    /** Drops the closed updates and reports the last one with the ID. */
    method DrainClosedUpdates(id: string) returns (update: Option<Update>, closed: seq<Update>)
      modifies this`closedUpdates
      ensures closed == old(closedUpdates) && State() == old(State()).(closedUpdates := [])
      ensures update == LastOf(old(closedUpdates), id)
    {
      closed, update := [], None;
      while closedUpdates != []
        invariant old(closedUpdates) == closed + closedUpdates
        invariant State() == old(State()).(closedUpdates := closedUpdates)
        invariant update == LastOf(closed, id)
        decreases |closedUpdates|
      {
        var u := closedUpdates[0];
        assert (closed + [u])[..|closed|] == closed;
        if u.id == id {
          update := Some(u);
        }
        closed, closedUpdates := closed + [u], closedUpdates[1..];
      }
    }
  }
}
