/** What every run of an index order keeps. */
module IndexOrderTheory {
  import opened Common
  import opened IndexOrderSpec

  datatype Op =
    | Send(id: string, side: Side, amount: real)
    | EngageAny(amount: real)
    | EngageNext(id: string, amount: real)
    | Complete(id: string)
    | Cancel(id: string)
    | Confirm(id: string, collateral: real, fees: real)
    | Fill(id: string, spent: real, quantity: real)

  /** A failing operation leaves the order as it was. */
  function Apply(o: Order, op: Op, t: real): Order {
    match op
    case Send(id, side, a) => UpdateOrder(o, id, side, a, t).0
    case EngageAny(a) => SolverEngage(o, a, t).0
    case EngageNext(id, a) =>
      var e := SolverEngageOne(o, id, a, t);
      if e.EngageFailed? then o else e.order
    case Complete(id) =>
      var c := SolverComplete(o, id);
      if c.None? then o else c.value
    case Cancel(id) => SolverCancel(o, id)
    case Confirm(id, c, fees) =>
      var r := CollateralReady(o, id, c, fees, t);
      if r.None? then o else r.value
    case Fill(id, s, q) =>
      var f := FillOrder(o, id, s, q);
      if f.None? then o else f.value
  }

  function Run(side: Side, ops: seq<Op>, t: real): Order {
    if ops == [] then NewOrder(side) else Apply(Run(side, ops[..|ops| - 1], t), ops[|ops| - 1], t)
  }

  // Structure

  ghost predicate OnlyFrontEngaged(q: seq<Update>) {
    forall i :: 0 < i < |q| ==> q[i].engaged.None?
  }

  ghost predicate NoneEngaged(q: seq<Update>) {
    forall u :: u in q ==> u.engaged.None?
  }

  ghost predicate AllEngaged(q: seq<Update>) {
    forall u :: u in q ==> u.engaged.Some?
  }

  ghost predicate Structured(o: Order) {
    && OnlyFrontEngaged(o.updates)
    && AllEngaged(o.engagedUpdates)
    && (o.engagedSide.None? ==> NoneEngaged(o.updates) && o.engagedUpdates == [])
    && (o.engagedSide.Some? ==> o.engagedSide.value == o.side)
    && (o.engaged.Some? <==> o.engagedSide.Some?)
  }

  /** A cancel never touches an engaged update that is not the front, and stops there. */
  lemma {:induction false} CancelStructure(q: seq<Update>, amount: real, t: real)
    requires OnlyFrontEngaged(q)
    ensures var m := MatchCancel(q, amount, t);
      && OnlyFrontEngaged(m.updates)
      && AllEngaged(m.engaged)
      && NoneEngaged(m.closed)
      && (NoneEngaged(q) ==> NoneEngaged(m.updates) && m.engaged == [])
      && (m.unmatched.Some? ==> m.updates == [])
  {
    if q != [] {
      var last, front := q[|q| - 1], q[..|q| - 1];
      var rest := last.remaining - amount;
      if rest < -t && rest < t && last.engaged.None? {
        CancelStructure(front, -rest, t);
      }
    }
  }

  lemma {:induction false} EngageStructure(q: seq<Update>, amount: real, t: real)
    requires OnlyFrontEngaged(q)
    ensures var m := MatchEngage(q, amount, t);
      && OnlyFrontEngaged(m.updates)
      && AllEngaged(m.engaged)
      && (m.unmatched.Some? ==> m.updates == [])
  {
    if q != [] {
      var rest := q[0].remaining - amount;
      assert forall i :: 0 <= i < |q[1..]| ==> q[1..][i] == q[i + 1];
      if rest < t && rest < -t {
        EngageStructure(q[1..], -rest, t);
      } else if rest >= t {
        assert MatchEngage(q, amount, t).updates == q[0 := Engage(q[0], amount)];
      }
    }
  }

  lemma {:induction false} OthersKeepOrder(q: seq<Update>, id: string)
    requires OnlyFrontEngaged(q)
    ensures OnlyFrontEngaged(Others(q, id))
    ensures forall u :: u in Others(q, id) ==> u in q
  {
    if q != [] {
      OthersKeepOrder(q[1..], id);
      var rest := Others(q[1..], id);
      forall i | 0 <= i < |rest| ensures rest[i].engaged.None? {
        var u := rest[i];
        assert u in q[1..];
        var j :| 0 <= j < |q[1..]| && q[1..][j] == u;
        assert u == q[j + 1];
      }
    }
  }

  /** An engaged order keeps its side. */
  ghost predicate KeepsSide(o: Order, o': Order) {
    o.engagedSide.Some? ==> o'.side == o.side && o'.engagedSide == o.engagedSide
  }

  lemma SendStructured(o: Order, id: string, side: Side, amount: real, t: real)
    requires Structured(o)
    ensures var o' := UpdateOrder(o, id, side, amount, t).0;
      Structured(o') && KeepsSide(o, o')
  {
    hide MatchCancel;
    CancelStructure(o.updates, amount, t);
  }

  lemma EngageAnyStructured(o: Order, amount: real, t: real)
    requires Structured(o)
    ensures Structured(SolverEngage(o, amount, t).0) && KeepsSide(o, SolverEngage(o, amount, t).0)
  {
    hide MatchEngage;
    EngageStructure(o.updates, amount, t);
  }

  lemma EngageOneStructured(o: Order, id: string, amount: real, t: real)
    requires Structured(o) && SolverEngageOne(o, id, amount, t).EngagedOne?
    ensures Structured(SolverEngageOne(o, id, amount, t).order) && KeepsSide(o, SolverEngageOne(o, id, amount, t).order)
  {
  }

  lemma FillStructured(o: Order, id: string, spent: real, quantity: real)
    requires Structured(o) && FillOrder(o, id, spent, quantity).Some?
    ensures Structured(FillOrder(o, id, spent, quantity).value) && KeepsSide(o, FillOrder(o, id, spent, quantity).value)
  {
  }

  /** Only the front update can be partly engaged, and an engaged order keeps its side. */
  lemma StepStructured(o: Order, op: Op, t: real)
    requires Structured(o)
    ensures Structured(Apply(o, op, t))
    ensures KeepsSide(o, Apply(o, op, t))
  {
    hide UpdateOrder, SolverEngage, SolverEngageOne, FillOrder;
    match op
    case Send(id, side, a) => SendStructured(o, id, side, a, t);
    case EngageAny(a) => EngageAnyStructured(o, a, t);
    case EngageNext(id, a) => if SolverEngageOne(o, id, a, t).EngagedOne? { EngageOneStructured(o, id, a, t); }
    case Complete(id) => CompleteStructured(o, id);
    case Cancel(id) => OthersKeepOrder(o.updates, id);
    case Confirm(id, c, fees) => ConfirmStructured(o, id, c, fees, t);
    case Fill(id, s, q) => if FillOrder(o, id, s, q).Some? { FillStructured(o, id, s, q); }
  }

  lemma CompleteStructured(o: Order, id: string)
    requires Structured(o)
    ensures var c := SolverComplete(o, id);
      c.Some? ==> Structured(c.value) && KeepsSide(o, c.value)
  {
  }

  lemma ConfirmStructured(o: Order, id: string, collateral: real, fees: real, t: real)
    requires Structured(o)
    ensures var r := CollateralReady(o, id, collateral, fees, t);
      r.Some? ==> Structured(r.value) && KeepsSide(o, r.value)
  {
  }

  lemma {:induction false} RunsAreStructured(side: Side, ops: seq<Op>, t: real)
    ensures Structured(Run(side, ops, t))
  {
    if ops != [] {
      RunsAreStructured(side, ops[..|ops| - 1], t);
      StepStructured(Run(side, ops[..|ops| - 1], t), ops[|ops| - 1], t);
    }
  }

  function Live(o: Order): seq<Update> { o.updates + o.engagedUpdates }

  lemma EngagedUpdateIsFound(o: Order, u: Update)
    requires OnlyFrontEngaged(o.updates) && u in Live(o) && u.engaged.Some?
    ensures !FindEngaged(o, u.id).Nowhere?
  {
    var k :| 0 <= k < |Live(o)| && Live(o)[k] == u;
    if k < |o.updates| {
      assert o.updates[k] == u;
      assert k == 0;
    } else {
      assert o.engagedUpdates[k - |o.updates|] == u;
    }
  }

  lemma FoundUpdateIsIt(o: Order, u: Update)
    requires DistinctLive(o) && u in Live(o)
    ensures var p := FindEngaged(o, u.id);
      && (p.AtFront? ==> o.updates[0] == u)
      && (p.Among? ==> o.engagedUpdates[p.i] == u)
  {
    var k :| 0 <= k < |Live(o)| && Live(o)[k] == u;
    var p := FindEngaged(o, u.id);
    if p.AtFront? {
      assert Live(o)[0].id == u.id;
    } else if p.Among? {
      assert Live(o)[|o.updates| + p.i].id == u.id;
    }
  }

  /** After any run every live engaged update is found by its ID, and with distinct IDs it is the one found. */
  lemma LiveEngagedUpdatesAreFound(side: Side, ops: seq<Op>, t: real, u: Update)
    requires u in Live(Run(side, ops, t)) && u.engaged.Some?
    ensures var o := Run(side, ops, t); var p := FindEngaged(o, u.id);
      && !p.Nowhere?
      && (p.AtFront? && DistinctLive(o) ==> o.updates[0] == u)
      && (p.Among? && DistinctLive(o) ==> o.engagedUpdates[p.i] == u)
  {
    hide Run, FindEngaged, DistinctLive, Live;
    RunsAreStructured(side, ops, t);
    var o := Run(side, ops, t);
    EngagedUpdateIsFound(o, u);
    if DistinctLive(o) {
      FoundUpdateIsIt(o, u);
    }
  }

  ghost predicate DistinctLive(o: Order) {
    forall i, j :: 0 <= i < j < |Live(o)| ==> Live(o)[i].id != Live(o)[j].id
  }

  // Engaged collateral is out of reach of opposite orders

  function EngagedOf(u: Update): real { OrZero(u.engaged) }

  function EngagedTotal(o: Order): real {
    SumBy(o.updates, EngagedOf) + SumBy(o.engagedUpdates, EngagedOf)
  }

  lemma {:induction false} UnengagedTotal(q: seq<Update>)
    requires NoneEngaged(q)
    ensures SumBy(q, EngagedOf) == 0.0
  {
    if q != [] {
      assert q[0].engaged.None?;
      UnengagedTotal(q[1..]);
    }
  }

  lemma {:induction false} CancelKeepsEngaged(q: seq<Update>, amount: real, t: real)
    ensures var m := MatchCancel(q, amount, t);
      SumBy(m.updates, EngagedOf) + SumBy(m.engaged, EngagedOf) == SumBy(q, EngagedOf)
  {
    if q != [] {
      var last, front := q[|q| - 1], q[..|q| - 1];
      var rest := last.remaining - amount;
      SumByAppend(front, [last], EngagedOf);
      SumByAppend(front, [last.(remaining := rest)], EngagedOf);
      assert q == front + [last];
      if rest < t && rest < -t && last.engaged.None? {
        CancelKeepsEngaged(front, -rest, t);
      }
    }
  }

  /** A new order, on either side, leaves the engaged collateral as it was. */
  lemma SendKeepsEngaged(o: Order, id: string, side: Side, amount: real, t: real)
    ensures EngagedTotal(UpdateOrder(o, id, side, amount, t).0) == EngagedTotal(o)
    ensures UpdateOrder(o, id, side, amount, t).0.engaged == o.engaged
  {
    var m := MatchCancel(o.updates, amount, t);
    CancelKeepsEngaged(o.updates, amount, t);
    SumByAppend(o.engagedUpdates, m.engaged, EngagedOf);
    SumByAppend(o.updates, [NewUpdate(id, side, amount)], EngagedOf);
    if m.unmatched.Some? {
      var flipped := NewUpdate(id, side, amount).(remaining := m.unmatched.value);
      SumByAppend(m.updates, [flipped], EngagedOf);
    }
  }

  // The order's remaining collateral against its queue

  function Off(o: Order): real { o.remaining - QueueTotal(o.updates) }

  /** Matching takes off the queue exactly what it reports, up to the tolerance when it reports nothing unmatched. */
  lemma {:induction false} CancelTotal(q: seq<Update>, amount: real, t: real)
    requires 0.0 <= t
    ensures var m := MatchCancel(q, amount, t);
      m.unmatched.None? ==> -t <= QueueTotal(q) - QueueTotal(m.updates) - amount <= t
  {
    if q != [] {
      var last, front := q[|q| - 1], q[..|q| - 1];
      var rest := last.remaining - amount;
      SumByAppend(front, [last], RemainingOf);
      SumByAppend(front, [last.(remaining := rest)], RemainingOf);
      assert q == front + [last];
      if rest < t && rest < -t && last.engaged.None? {
        CancelTotal(front, -rest, t);
      }
    }
  }

  lemma {:induction false} EngageTotal(q: seq<Update>, amount: real, t: real)
    requires 0.0 <= t
    ensures var m := MatchEngage(q, amount, t);
      && (m.unmatched.None? ==> -t <= QueueTotal(q) - QueueTotal(m.updates) - amount <= t)
      && (m.unmatched.Some? ==> QueueTotal(q) - QueueTotal(m.updates) == amount - m.unmatched.value)
  {
    if q != [] {
      var rest := q[0].remaining - amount;
      if rest < t && rest < -t {
        EngageTotal(q[1..], -rest, t);
      } else if rest >= t {
        var m := MatchEngage(q, amount, t);
        assert m.updates[1..] == q[1..];
      }
    }
  }

  lemma {:induction false} SplitTotal(q: seq<Update>, id: string)
    ensures QueueTotal(q) == QueueTotal(Others(q, id)) + QueueTotal(Those(q, id))
  {
    if q != [] {
      SplitTotal(q[1..], id);
      SumByOne(q[0], RemainingOf);
      SumByAppend([q[0]], Others(q[1..], id), RemainingOf);
      SumByAppend([q[0]], Those(q[1..], id), RemainingOf);
    }
  }

  lemma EngageOneOff(o: Order, id: string, amount: real, t: real)
    requires 0.0 <= t && SolverEngageOne(o, id, amount, t).EngagedOne? && !FullyEngaged(o, id)
    ensures -t <= Off(SolverEngageOne(o, id, amount, t).order) - Off(o) <= t
  {
    var u := Engage(o.updates[0], Min(amount, o.updates[0].remaining));
    SumByUpdate(o.updates, 0, u, RemainingOf);
  }

  /** One operation moves the order's remaining collateral away from its queue by at most the tolerance;
      sending an order that flips the side or cuts an engaged one restores it exactly. */
  lemma StepOff(o: Order, op: Op, t: real)
    requires 0.0 <= t && Structured(o)
    requires op.EngageNext? && FullyEngaged(o, op.id) ==> -t <= op.amount
    ensures -t <= Off(Apply(o, op, t)) - Off(o) <= t || Off(Apply(o, op, t)) == 0.0
  {
    match op
    case Send(id, side, a) => SendOff(o, id, side, a, t);
    case EngageAny(a) => EngageTotal(o.updates, a, t);
    case EngageNext(id, a) =>
      if SolverEngageOne(o, id, a, t).EngagedOne? && !FullyEngaged(o, id) {
        EngageOneOff(o, id, a, t);
      }
    case Complete(id) =>
    case Cancel(id) => SplitTotal(o.updates, id);
    case Confirm(id, c, fees) => if CollateralReady(o, id, c, fees, t).Some? { ConfirmOff(o, id, c, fees, t); }
    case Fill(id, s, q) => if FillOrder(o, id, s, q).Some? { FillOff(o, id, s, q); }
  }

  lemma SendOff(o: Order, id: string, side: Side, a: real, t: real)
    requires 0.0 <= t && Structured(o)
    ensures var o' := UpdateOrder(o, id, side, a, t).0; var m := MatchCancel(o.updates, a, t);
      && (-t <= Off(o') - Off(o) <= t || Off(o') == 0.0)
      && (side == o.side ==> Off(o') == Off(o))
      && (side != o.side && m.unmatched.Some? ==> Off(o') == 0.0)
  {
    CancelTotal(o.updates, a, t);
    CancelStructure(o.updates, a, t);
    SumByAppend(o.updates, [NewUpdate(id, side, a)], RemainingOf);
    var m := MatchCancel(o.updates, a, t);
    if side != o.side && m.unmatched.Some? {
      assert m.updates == [];
      var flipped := NewUpdate(id, side, a).(remaining := m.unmatched.value);
      assert [] + [flipped] == [flipped];
      SumByOne(flipped, RemainingOf);
    }
  }

  lemma ConfirmOff(o: Order, id: string, c: real, fees: real, t: real)
    requires CollateralReady(o, id, c, fees, t).Some?
    ensures Off(CollateralReady(o, id, c, fees, t).value) == Off(o)
  {
    var i := FindUpdate(o.updates, id);
    var u := o.updates[i];
    var u' := u.(spent := u.spent + fees, fee := u.fee + fees, remaining := u.remaining - fees);
    SumByUpdate(o.updates, i, u', RemainingOf);
  }

  lemma FillOff(o: Order, id: string, spent: real, quantity: real)
    requires FillOrder(o, id, spent, quantity).Some?
    ensures Off(FillOrder(o, id, spent, quantity).value) == Off(o)
  {
    if FindEngaged(o, id).AtFront? {
      SumByUpdate(o.updates, 0, FillUpdate(o.updates[0], spent, quantity), RemainingOf);
    }
  }

  /** Pushing, flipping, cutting part of an update, engaging more than there is and cancelling by ID are exact. */
  lemma ExactSteps(o: Order, op: Op, t: real)
    requires 0.0 <= t && Structured(o)
    ensures op.Send? && op.side == o.side ==> Off(Apply(o, op, t)) == Off(o)
    ensures op.Send? && UpdateOrder(o, op.id, op.side, op.amount, t).1.Flip? ==> Off(Apply(o, op, t)) == 0.0
    ensures op.Send? && op.side != o.side && PartCut(o.updates, op.amount, t) ==> Off(Apply(o, op, t)) == Off(o)
    ensures op.EngageAny? && SolverEngage(o, op.amount, t).1.Some? ==> Off(Apply(o, op, t)) == Off(o)
    ensures op.Cancel? || op.Complete? || op.Confirm? || op.Fill? ==> Off(Apply(o, op, t)) == Off(o)
  {
    match op
    case Send(id, side, a) =>
      SendOff(o, id, side, a, t);
      if PartCut(o.updates, a, t) { PartCutTotal(o.updates, a, t); }
    case EngageAny(a) => EngageTotal(o.updates, a, t);
    case EngageNext(id, a) =>
    case Complete(id) =>
    case Cancel(id) => SplitTotal(o.updates, id);
    case Confirm(id, c, fees) => if CollateralReady(o, id, c, fees, t).Some? { ConfirmOff(o, id, c, fees, t); }
    case Fill(id, s, q) => if FillOrder(o, id, s, q).Some? { FillOff(o, id, s, q); }
  }

  /** The cancel ends by cutting part of an update. */
  predicate PartCut(q: seq<Update>, amount: real, t: real) {
    q != [] &&
      var last := q[|q| - 1];
      last.remaining - amount >= t ||
      (last.engaged.None? && last.remaining - amount < -t && PartCut(q[..|q| - 1], amount - last.remaining, t))
  }

  lemma {:induction false} PartCutTotal(q: seq<Update>, amount: real, t: real)
    requires 0.0 <= t && PartCut(q, amount, t)
    ensures QueueTotal(MatchCancel(q, amount, t).updates) == QueueTotal(q) - amount
    ensures MatchCancel(q, amount, t).unmatched.None?
  {
    var last, front := q[|q| - 1], q[..|q| - 1];
    var rest := last.remaining - amount;
    SumByAppend(front, [last], RemainingOf);
    SumByAppend(front, [last.(remaining := rest)], RemainingOf);
    assert q == front + [last];
    if rest < t {
      PartCutTotal(front, -rest, t);
    }
  }

  /** Re-engaging an order that is already fully engaged must not give collateral back. */
  ghost predicate EngagementsFit(side: Side, ops: seq<Op>, t: real) {
    ops != [] ==>
      var o, op := Run(side, ops[..|ops| - 1], t), ops[|ops| - 1];
      && EngagementsFit(side, ops[..|ops| - 1], t)
      && (op.EngageNext? && FullyEngaged(o, op.id) ==> -t <= op.amount)
  }

  /** After n operations the order's remaining collateral is within n tolerances of its queue. */
  lemma {:induction false} RemainingIsItsQueue(side: Side, ops: seq<Op>, t: real)
    requires 0.0 <= t && EngagementsFit(side, ops, t)
    ensures -Times(|ops|, t) <= Off(Run(side, ops, t)) <= Times(|ops|, t)
  {
    if ops != [] {
      var o := Run(side, ops[..|ops| - 1], t);
      RemainingIsItsQueue(side, ops[..|ops| - 1], t);
      RunsAreStructured(side, ops[..|ops| - 1], t);
      StepOff(o, ops[|ops| - 1], t);
      TimesGrows(0, |ops|, t);
    }
  }

  /** Re-engaging a fully engaged order changes the order's remaining collateral but no update, so the step stays
      within the tolerance exactly when no more than the tolerance is given back. */
  lemma ReengagingFullyEngaged(o: Order, id: string, amount: real, t: real)
    requires 0.0 <= t && FullyEngaged(o, id) && amount < t
    ensures var e := SolverEngageOne(o, id, amount, t);
      && e.EngagedOne? && e.order.updates == o.updates && e.order.engagedUpdates == o.engagedUpdates
      && Off(e.order) - Off(o) == -amount
      && (-t <= Off(e.order) - Off(o) <= t <==> -t <= amount)
  {
  }

  // Engaging is a greedy prefix of the queue

  /** What is left to engage when update k is reached. */
  function LeftAt(q: seq<Update>, amount: real, k: nat): real
    requires k <= |q|
  {
    amount - QueueTotal(q[..k])
  }

  ghost predicate IsGreedy(q: seq<Update>, amount: real, t: real, m: EngageMatch) {
    var k := |m.engaged|;
    && k <= |q|
    && (forall j :: 0 <= j < k ==> m.engaged[j] == Engage(q[j], q[j].remaining))
    && (forall j :: 0 < j < k ==> t < LeftAt(q, amount, j))
    && match m.unmatched
       case Some(u) => k == |q| && m.updates == [] && u == LeftAt(q, amount, k) && (0 < k ==> t < u)
       case None =>
         || // it stopped inside update k
            (&& k < |q|
             && (0 < k ==> t < LeftAt(q, amount, k))
             && t <= q[k].remaining - LeftAt(q, amount, k)
             && m.updates == [Engage(q[k], LeftAt(q, amount, k))] + q[k + 1..])
         || // the last update taken used the amount up
            (0 < k && m.updates == q[k..] && -t < LeftAt(q, amount, k) <= t)
  }

  /** Engaging takes whole updates from the front while more than the tolerance is left, then part of the next. */
  lemma {:induction false} EngageIsGreedy(q: seq<Update>, amount: real, t: real)
    requires 0.0 <= t
    ensures IsGreedy(q, amount, t, MatchEngage(q, amount, t))
  {
    if q != [] {
      var rest := q[0].remaining - amount;
      var m := MatchEngage(q, amount, t);
      LeftAfterFirst(q, amount);
      if rest < t && rest < -t {
        EngageIsGreedy(q[1..], -rest, t);
        var m' := MatchEngage(q[1..], -rest, t);
        assert m.engaged[1..] == m'.engaged;
        assert forall j :: 0 <= j < |m'.engaged| ==> m.engaged[j + 1] == m'.engaged[j];
        forall j | 0 < j < |m.engaged| ensures t < LeftAt(q, amount, j) {
          assert LeftAt(q, amount, j) == LeftAt(q[1..], -rest, j - 1);
        }
      }
    }
  }

  lemma LeftAfterFirst(q: seq<Update>, amount: real)
    requires q != []
    ensures LeftAt(q, amount, 0) == amount
    ensures forall j :: 0 < j <= |q| ==> LeftAt(q, amount, j) == LeftAt(q[1..], amount - q[0].remaining, j - 1)
  {
    forall j | 0 < j <= |q| ensures LeftAt(q, amount, j) == LeftAt(q[1..], amount - q[0].remaining, j - 1) {
      assert q[..j][1..] == q[1..][..j - 1];
    }
  }

  // When two engagements in a row are one engagement of the sum

  /** Engaging stops inside an update or exhausts the queue: no update it takes ends within the tolerance. */
  predicate EndsClean(q: seq<Update>, amount: real, t: real) {
    q == [] ||
      var rest := q[0].remaining - amount;
      rest >= t || (rest < -t && EndsClean(q[1..], -rest, t))
  }

  /** Matching a and then b gives what matching their sum gives. */
  predicate MatchesAsOne(q: seq<Update>, a: real, b: real, t: real) {
    var first := MatchEngage(q, a, t);
    var second := MatchEngage(first.updates, b, t);
    var both := MatchEngage(q, a + b, t);
    && both.updates == second.updates
    && both.engaged == first.engaged + second.engaged
    && OrZero(both.unmatched) == OrZero(first.unmatched) + OrZero(second.unmatched)
  }

  predicate EngagesAsOne(o: Order, a: real, b: real, t: real) {
    var (o1, u1) := SolverEngage(o, a, t);
    var (o2, u2) := SolverEngage(o1, b, t);
    var (both, u) := SolverEngage(o, a + b, t);
    both == o2 && OrZero(u) == OrZero(u1) + OrZero(u2)
  }

  lemma {:induction false} MatchingAddsUp(q: seq<Update>, a: real, b: real, t: real)
    requires 0.0 <= b && EndsClean(q, a, t)
    ensures MatchesAsOne(q, a, b, t)
  {
    if q != [] {
      var rest := q[0].remaining - a;
      if rest < t {
        MatchingAddsUp(q[1..], -rest, b, t);
      } else {
        var q' := [Engage(q[0], a)] + q[1..];
        assert q'[1..] == q[1..];
        assert Engage(Engage(q[0], a), rest) == Engage(q[0], q[0].remaining);
        assert Engage(Engage(q[0], a), b) == Engage(q[0], a + b);
      }
    }
  }

  /** An amount that breaks adding up after an engagement that ends within the tolerance of an update. */
  lemma {:induction false} MatchingBreaks(q: seq<Update>, a: real, t: real) returns (b: real)
    requires OnlyFrontEngaged(q) && !EndsClean(q, a, t)
    ensures 0.0 <= b && !MatchesAsOne(q, a, b, t)
  {
    var rest := q[0].remaining - a;
    assert forall i :: 0 <= i < |q[1..]| ==> q[1..][i] == q[i + 1];
    if rest < -t {
      b := MatchingBreaks(q[1..], -rest, t);
      MatchingLonger(q, a, b, t);
    } else {
      b := if |q| == 1 then t else 0.0;
      MatchingBreaksNow(q, a, b, t);
    }
  }

  lemma MatchingBreaksNow(q: seq<Update>, a: real, b: real, t: real)
    requires OnlyFrontEngaged(q) && q != [] && -t <= q[0].remaining - a < t
    requires b == if |q| == 1 then t else 0.0
    ensures !MatchesAsOne(q, a, b, t)
  {
    var first := MatchEngage(q, a, t);
    var second := MatchEngage(first.updates, b, t);
    assert first.updates == q[1..] && |first.engaged| == 1;
    if |q| > 1 {
      assert q[1..][0] == q[1] && q[1].engaged.None?;
      assert MatchEngage(q, a + b, t) == first;
      if q[1].remaining - b >= t {
        assert second.updates[0] == Engage(q[1], b) != q[1];
      } else {
        assert |second.engaged| > 0;
      }
    } else {
      assert q[1..] == [] && second.unmatched == Some(t);
      var over := a + b - q[0].remaining;
      assert MatchEngage(q[1..], over, t).unmatched == Some(over);
      assert MatchEngage(q, a + b, t).unmatched in {None, Some(over)};
    }
  }

  lemma MatchingLonger(q: seq<Update>, a: real, b: real, t: real)
    requires q != [] && q[0].remaining - a < -t && q[0].remaining - a < t && 0.0 <= b
    ensures MatchesAsOne(q, a, b, t) ==> MatchesAsOne(q[1..], a - q[0].remaining, b, t)
  {
    var a' := a - q[0].remaining;
    var first := MatchEngage(q[1..], a', t);
    var second := MatchEngage(first.updates, b, t);
    var both := MatchEngage(q[1..], a' + b, t);
    var full := Engage(q[0], q[0].remaining);
    assert MatchEngage(q, a + b, t).engaged == [full] + both.engaged;
    assert MatchEngage(q, a, t).engaged == [full] + first.engaged;
    assert ([full] + first.engaged) + second.engaged == [full] + (first.engaged + second.engaged);
    assert ([full] + both.engaged)[1..] == both.engaged;
  }

  /** The order and its unmatched amount follow the matching. */
  lemma OrderFollowsMatching(o: Order, a: real, b: real, t: real)
    ensures EngagesAsOne(o, a, b, t) <==> MatchesAsOne(o.updates, a, b, t)
  {
    hide MatchEngage;
    var e, first := o.engagedUpdates, MatchEngage(o.updates, a, t);
    var second := MatchEngage(first.updates, b, t);
    var both := MatchEngage(o.updates, a + b, t);
    assert (e + first.engaged) + second.engaged == e + (first.engaged + second.engaged);
    assert (e + both.engaged)[|e|..] == both.engaged;
    assert (e + (first.engaged + second.engaged))[|e|..] == first.engaged + second.engaged;
  }

  /** Two engagements in a row are one engagement of the sum, whatever the second one is, exactly when the first stops
      inside an update or exhausts the queue. */
  lemma EngagingAddsUp(o: Order, a: real, t: real)
    requires Structured(o)
    ensures EndsClean(o.updates, a, t) <==> forall b :: 0.0 <= b ==> EngagesAsOne(o, a, b, t)
  {
    hide EngagesAsOne, MatchesAsOne, EndsClean;
    if EndsClean(o.updates, a, t) {
      forall b | 0.0 <= b ensures EngagesAsOne(o, a, b, t) {
        MatchingAddsUp(o.updates, a, b, t);
        OrderFollowsMatching(o, a, b, t);
      }
    } else {
      var b := MatchingBreaks(o.updates, a, t);
      OrderFollowsMatching(o, a, b, t);
    }
  }

  /** Without a tolerance every engagement does. */
  lemma {:induction false} NoToleranceEndsClean(q: seq<Update>, amount: real, t: real)
    requires t == 0.0
    ensures EndsClean(q, amount, t)
  {
    if q != [] && q[0].remaining - amount < t {
      NoToleranceEndsClean(q[1..], amount - q[0].remaining, t);
    }
  }

  /** With a tolerance the simplest engagement does not: taking exactly what the only update has and then t more
      leaves t unmatched, taking both at once leaves nothing. */
  lemma ToleranceBreaksAddingUp(u: Update, t: real)
    requires 0.0 < t
    ensures var first := MatchEngage([u], u.remaining, t);
      && MatchEngage(first.updates, t, t).unmatched == Some(t)
      && MatchEngage([u], u.remaining + t, t).unmatched == None
  {
  }
}
