/** One update followed through the order manager's queue. */
module UpdateLedger {
  import opened Common
  import opened IndexOrderSpec
  import opened IndexOrderTheory

  /** The live updates with an ID. */
  function Mine(o: Order, id: string): seq<Update> {
    Those(o.updates, id) + Those(o.engagedUpdates, id)
  }

  ghost predicate Holds(o: Order, id: string, u: Update) {
    Mine(o, id) == [u]
  }

  lemma {:induction false} ThoseAppend(xs: seq<Update>, ys: seq<Update>, id: string)
    ensures Those(xs + ys, id) == Those(xs, id) + Those(ys, id)
  {
    if xs == [] {
      assert xs + ys == ys;
    } else {
      assert (xs + ys)[1..] == xs[1..] + ys;
      ThoseAppend(xs[1..], ys, id);
    }
  }

  lemma ThoseOne(u: Update, id: string)
    ensures Those([u], id) == if u.id == id then [u] else []
  {
  }

  lemma ThoseAround(q: seq<Update>, i: nat, x: Update, id: string)
    requires i < |q|
    ensures Those(q, id) == Those(q[..i], id) + Those([q[i]], id) + Those(q[i + 1..], id)
    ensures Those(q[i := x], id) == Those(q[..i], id) + Those([x], id) + Those(q[i + 1..], id)
    ensures Those(q[..i] + q[i + 1..], id) == Those(q[..i], id) + Those(q[i + 1..], id)
  {
    assert q == q[..i] + [q[i]] + q[i + 1..];
    assert q[i := x] == q[..i] + [x] + q[i + 1..];
    ThoseAppend(q[..i] + [q[i]], q[i + 1..], id);
    ThoseAppend(q[..i], [q[i]], id);
    ThoseAppend(q[..i] + [x], q[i + 1..], id);
    ThoseAppend(q[..i], [x], id);
    ThoseAppend(q[..i], q[i + 1..], id);
  }

  lemma {:induction false} ThoseFound(q: seq<Update>, id: string)
    ensures Those(q, id) == [] <==> FindUpdate(q, id) == |q|
    ensures FindUpdate(q, id) < |q| ==> Those(q, id)[0] == q[FindUpdate(q, id)]
  {
    if q != [] && q[0].id != id {
      ThoseFound(q[1..], id);
    }
  }

  /** Another update changed or removed. */
  lemma NotMine(q: seq<Update>, i: nat, x: Update, id: string)
    requires i < |q| && q[i].id != id && x.id != id
    ensures Those(q[i := x], id) == Those(q, id) == Those(q[..i] + q[i + 1..], id)
  {
    ThoseAround(q, i, x, id);
    ThoseOne(q[i], id);
    ThoseOne(x, id);
    assert Those(q[..i], id) + [] == Those(q[..i], id);
  }

  /** The one update with the ID changed. */
  lemma MineChanged(q: seq<Update>, i: nat, x: Update, id: string)
    requires i < |q| && q[i].id == id && x.id == id && |Those(q, id)| == 1
    ensures Those(q, id) == [q[i]] && Those(q[i := x], id) == [x] && Those(q[..i] + q[i + 1..], id) == []
  {
    ThoseAround(q, i, x, id);
    ThoseOne(q[i], id);
    ThoseOne(x, id);
    assert |Those(q[..i], id)| == 0 && |Those(q[i + 1..], id)| == 0;
  }

  lemma {:induction false} OthersKeepThose(q: seq<Update>, other: string, id: string)
    requires other != id
    ensures Those(Others(q, other), id) == Those(q, id)
  {
    if q != [] {
      OthersKeepThose(q[1..], other, id);
      if q[0].id != other {
        assert ([q[0]] + Others(q[1..], other))[1..] == Others(q[1..], other);
      }
    }
  }

  // Operations on other updates

  /** The operation is about another update, not an order on the opposite side, and does not make the order manager
      remove the order: that happens when an update is completed and none is left in the queue. */
  predicate Elsewhere(o: Order, op: Op, id: string) {
    match op
    case Send(other, side, _) => other != id && side != o.side.Opposite()
    case EngageAny(_) => false
    case Complete(other) => other != id && (o.updates != [] || SolverComplete(o, other).None?)
    case _ => op.id != id
  }

  /** The same updates with the ID, in the queue and among the fully engaged ones. */
  predicate SameMine(o: Order, o': Order, id: string) {
    Those(o'.updates, id) == Those(o.updates, id) && Those(o'.engagedUpdates, id) == Those(o.engagedUpdates, id)
  }

  lemma EngageElsewhere(o: Order, other: string, amount: real, t: real, id: string)
    requires other != id && SolverEngageOne(o, other, amount, t).EngagedOne?
    ensures SameMine(o, SolverEngageOne(o, other, amount, t).order, id)
  {
    if !FullyEngaged(o, other) {
      var u := Engage(o.updates[0], Min(amount, o.updates[0].remaining));
      NotMine(o.updates, 0, u, id);
      assert o.updates[..0] + o.updates[1..] == o.updates[1..];
      ThoseAppend(o.engagedUpdates, [u], id);
      ThoseOne(u, id);
      assert Those(o.engagedUpdates, id) + [] == Those(o.engagedUpdates, id);
    }
  }

  lemma FillElsewhere(o: Order, other: string, spent: real, quantity: real, id: string)
    requires other != id && FillOrder(o, other, spent, quantity).Some?
    ensures SameMine(o, FillOrder(o, other, spent, quantity).value, id)
  {
    var p := FindEngaged(o, other);
    if p.AtFront? {
      NotMine(o.updates, 0, FillUpdate(o.updates[0], spent, quantity), id);
    } else {
      NotMine(o.engagedUpdates, p.i, FillUpdate(o.engagedUpdates[p.i], spent, quantity), id);
    }
  }

  /** Operations on other updates leave this one as it was and where it was. */
  lemma ElsewhereKeepsMine(o: Order, op: Op, id: string, t: real)
    requires Elsewhere(o, op, id)
    ensures SameMine(o, Apply(o, op, t), id) && Mine(Apply(o, op, t), id) == Mine(o, id)
  {
    hide SolverEngageOne, FillOrder, Engage;
    match op
    case Send(other, side, a) =>
      ThoseAppend(o.updates, [NewUpdate(other, side, a)], id);
      ThoseOne(NewUpdate(other, side, a), id);
      assert Those(o.updates, id) + [] == Those(o.updates, id);
    case EngageAny(_) =>
    case EngageNext(other, a) =>
      if SolverEngageOne(o, other, a, t).EngagedOne? { EngageElsewhere(o, other, a, t, id); }
    case Complete(other) =>
      var i := FindUpdate(o.engagedUpdates, other);
      if i < |o.engagedUpdates| { NotMine(o.engagedUpdates, i, o.engagedUpdates[i], id); }
    case Cancel(other) => OthersKeepThose(o.updates, other, id);
    case Confirm(other, c, fees) =>
      var i := FindUpdate(o.updates, other);
      if i < |o.updates| {
        var u := o.updates[i];
        NotMine(o.updates, i, u.(spent := u.spent + fees, fee := u.fee + fees, remaining := u.remaining - fees), id);
      }
    case Fill(other, s, q) => if FillOrder(o, other, s, q).Some? { FillElsewhere(o, other, s, q, id); }
  }

  // Operations on the update itself

  lemma HoldsOne(o: Order, id: string, u: Update)
    requires Holds(o, id, u)
    ensures (Those(o.updates, id) == [u] && Those(o.engagedUpdates, id) == [])
         || (Those(o.updates, id) == [] && Those(o.engagedUpdates, id) == [u])
    ensures u.id == id
  {
    var xs, ys := Those(o.updates, id), Those(o.engagedUpdates, id);
    assert |xs| + |ys| == 1;
    if |xs| == 1 {
      assert (xs + ys)[0] == xs[0];
      ThoseFound(o.updates, id);
    } else {
      assert (xs + ys)[0] == ys[0];
      ThoseFound(o.engagedUpdates, id);
    }
  }

  lemma ConfirmMine(o: Order, id: string, u: Update, collateral: real, fees: real, t: real)
    requires Holds(o, id, u) && CollateralReady(o, id, collateral, fees, t).Some?
    ensures var i := FindUpdate(o.updates, id);
      i < |o.updates| && o.updates[i] == u
    ensures Holds(CollateralReady(o, id, collateral, fees, t).value, id,
                  u.(spent := u.spent + fees, fee := u.fee + fees, remaining := u.remaining - fees))
  {
    HoldsOne(o, id, u);
    ThoseFound(o.updates, id);
    var i := FindUpdate(o.updates, id);
    MineChanged(o.updates, i, u.(spent := u.spent + fees, fee := u.fee + fees, remaining := u.remaining - fees), id);
  }

  /** Engaging moves collateral of the update, unless it counts as fully engaged already. */
  lemma EngageMine(o: Order, id: string, u: Update, amount: real, t: real)
    requires Holds(o, id, u) && SolverEngageOne(o, id, amount, t).EngagedOne?
    ensures var e := SolverEngageOne(o, id, amount, t);
      if FullyEngaged(o, id) then Holds(e.order, id, u) && e.remaining == 0.0 && e.unmatched.None?
      else
        var u' := Engage(u, Min(amount, u.remaining));
        Holds(e.order, id, u') && e.remaining == u'.remaining && o.updates != [] && o.updates[0] == u
  {
    HoldsOne(o, id, u);
    if !FullyEngaged(o, id) {
      assert o.updates[0].id == id;
      ThoseFound(o.updates, id);
      assert Those(o.updates, id) == [u];
      var u' := Engage(u, Min(amount, u.remaining));
      MineChanged(o.updates, 0, u', id);
      assert o.updates[..0] + o.updates[1..] == o.updates[1..];
      ThoseAppend(o.engagedUpdates, [u'], id);
      ThoseOne(u', id);
    }
  }

  /** An engaged update is found and filled. */
  lemma FillMine(o: Order, id: string, u: Update, spent: real, quantity: real)
    requires Holds(o, id, u) && Structured(o) && u.engaged.Some?
    ensures FillOrder(o, id, spent, quantity).Some?
    ensures Holds(FillOrder(o, id, spent, quantity).value, id, FillUpdate(u, spent, quantity))
  {
    HoldsOne(o, id, u);
    ThoseFound(o.updates, id);
    ThoseFound(o.engagedUpdates, id);
    var u' := FillUpdate(u, spent, quantity);
    var i := FindUpdate(o.updates, id);
    if i < |o.updates| {
      assert o.updates[i] == u && i == 0;
      MineChanged(o.updates, 0, u', id);
      assert [u'] + [] == [u'];
    } else {
      var j := FindUpdate(o.engagedUpdates, id);
      assert o.engagedUpdates[j] == u;
      MineChanged(o.engagedUpdates, j, u', id);
      assert [] + [u'] == [u'];
    }
  }

  /** Completing finds the update exactly when it is among the fully engaged ones. */
  lemma CompleteMine(o: Order, id: string, u: Update)
    requires Holds(o, id, u)
    ensures SolverComplete(o, id).Some? <==> Those(o.engagedUpdates, id) == [u]
    ensures SolverComplete(o, id).Some? ==> SolverComplete(o, id).value.closedUpdates == o.closedUpdates + [u]
    ensures SolverComplete(o, id).Some? ==> Mine(SolverComplete(o, id).value, id) == []
  {
    HoldsOne(o, id, u);
    hide Those;
    ThoseFound(o.engagedUpdates, id);
    var i := FindUpdate(o.engagedUpdates, id);
    if i < |o.engagedUpdates| {
      assert Those(o.engagedUpdates, id) == [u];
      MineChanged(o.engagedUpdates, i, u, id);
    }
  }

  lemma BeginHolds(o: Order, u: Update)
    requires Mine(o, u.id) == []
    ensures Holds(o.(remaining := o.remaining + u.remaining, updates := o.updates + [u]), u.id, u)
  {
    ThoseAppend(o.updates, [u], u.id);
    ThoseOne(u, u.id);
    assert Those(o.updates, u.id) == [] && Those(o.engagedUpdates, u.id) == [];
  }
}
