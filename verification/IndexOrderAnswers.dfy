/** What the operations of an index order answer, and exactly which updates they touch. */
module IndexOrderAnswers {
  import opened Common
  import opened IndexOrderSpec
  import opened IndexOrderTheory

  // Cancelling by an order on the opposite side

  /** What is left of the amount after the last k updates. */
  function LeftAfter(q: seq<Update>, amount: real, k: nat): real
    requires k <= |q|
  {
    amount - QueueTotal(q[|q| - k..])
  }

  /** The last k updates, none of them engaged, are closed whole from the back. It ends with the queue, at an engaged
      update that is exhausted, inside an update that is cut, or with an update that uses the amount up. */
  ghost predicate IsLastOut(q: seq<Update>, amount: real, t: real, m: CancelMatch) {
    var k := |m.closed|;
    && k <= |q|
    && (forall j :: 0 <= j < k ==> m.closed[j] == q[|q| - 1 - j] && q[|q| - 1 - j].engaged.None?)
    && (forall j :: 0 < j < k ==> t < LeftAfter(q, amount, j))
    && match m.unmatched
       case None =>
         && m.engaged == []
         && ((0 < k && m.updates == q[..|q| - k] && -t < LeftAfter(q, amount, k) <= t)
             || (k < |q| && (0 < k ==> t < LeftAfter(q, amount, k))
                 && CutLast(q[..|q| - k], LeftAfter(q, amount, k), t, m)))
       case Some(u) =>
         || (k == |q| && m.updates == m.engaged == [] && u == LeftAfter(q, amount, k) && (0 < k ==> t < u))
         || (k < |q| && (0 < k ==> t < LeftAfter(q, amount, k))
             && ExhaustsLast(q[..|q| - k], LeftAfter(q, amount, k), t, m))
  }

  /** Something worth counting remains of the last update. */
  predicate CutLast(q: seq<Update>, amount: real, t: real, m: CancelMatch)
    requires q != []
  {
    var last := q[|q| - 1];
    && t <= last.remaining - amount
    && m.updates == q[..|q| - 1] + [last.(remaining := last.remaining - amount)]
  }

  /** The last update is engaged, so it counts as fully engaged, and what it could not give is unmatched. */
  predicate ExhaustsLast(q: seq<Update>, amount: real, t: real, m: CancelMatch)
    requires q != []
  {
    var last := q[|q| - 1];
    && last.engaged.Some? && last.remaining - amount < t
    && m.updates == q[..|q| - 1] && m.engaged == [last.(remaining := 0.0)]
    && m.unmatched == Some(amount - last.remaining)
  }

  lemma LeftAfterLast(q: seq<Update>, amount: real, k: nat)
    requires 0 < k <= |q|
    ensures LeftAfter(q, amount, k) == LeftAfter(q[..|q| - 1], amount - q[|q| - 1].remaining, k - 1)
  {
    var front, last := q[..|q| - 1], q[|q| - 1];
    assert q[|q| - k..] == front[|front| - (k - 1)..] + [last];
    SumByAppend(front[|front| - (k - 1)..], [last], RemainingOf);
    SumByOne(last, RemainingOf);
  }

  lemma NoneAfter(q: seq<Update>, amount: real)
    ensures LeftAfter(q, amount, 0) == amount
  {
    assert q[|q|..] == [];
  }

  lemma OneMoreOut(q: seq<Update>, amount: real, t: real, m: CancelMatch)
    requires q != [] && q[|q| - 1].engaged.None? && q[|q| - 1].remaining - amount < -t
    requires IsLastOut(q[..|q| - 1], amount - q[|q| - 1].remaining, t, m)
    ensures IsLastOut(q, amount, t, m.(closed := [q[|q| - 1]] + m.closed))
  {
    hide CutLast, ExhaustsLast, LeftAfter;
    var front, last := q[..|q| - 1], q[|q| - 1];
    var m', rest := m.(closed := [last] + m.closed), amount - last.remaining;
    var k := |m'.closed|;
    LeftAfterLast(q, amount, k);
    NoneAfter(front, rest);
    forall j | 0 <= j < k ensures m'.closed[j] == q[|q| - 1 - j] && q[|q| - 1 - j].engaged.None? {
      if j > 0 { assert m.closed[j - 1] == front[|front| - 1 - (j - 1)]; }
    }
    forall j | 0 < j < k ensures t < LeftAfter(q, amount, j) {
      LeftAfterLast(q, amount, j);
      if j > 1 { assert t < LeftAfter(front, rest, j - 1); }
    }
    assert front[..|front| - |m.closed|] == q[..|q| - k];
    if k < |q| {
      SameEnds(front[..|front| - |m.closed|], LeftAfter(q, amount, k), t, m, m');
    }
  }

  lemma SameEnds(q: seq<Update>, amount: real, t: real, m: CancelMatch, m': CancelMatch)
    requires m' == m.(closed := m'.closed) && q != []
    ensures CutLast(q, amount, t, m') <==> CutLast(q, amount, t, m)
    ensures ExhaustsLast(q, amount, t, m') <==> ExhaustsLast(q, amount, t, m)
  {
  }

  /** The last update ends it. */
  lemma EndsAtLast(q: seq<Update>, amount: real, t: real)
    requires 0.0 <= t && q != []
    requires q[|q| - 1].remaining - amount >= -t || q[|q| - 1].engaged.Some?
    ensures IsLastOut(q, amount, t, MatchCancel(q, amount, t))
  {
    var last, front := q[|q| - 1], q[..|q| - 1];
    NoneAfter(q, amount);
    assert q[..|q| - 0] == q;
    if last.remaining - amount < t && last.engaged.None? {
      LeftAfterLast(q, amount, 1);
      NoneAfter(front, amount - last.remaining);
    }
    hide LeftAfter;
  }

  /** Updates are cancelled last in, first out. */
  lemma {:induction false} CancelIsLastOut(q: seq<Update>, amount: real, t: real)
    requires 0.0 <= t
    ensures IsLastOut(q, amount, t, MatchCancel(q, amount, t))
  {
    if q == [] {
      NoneAfter(q, amount);
    } else {
      hide IsLastOut;
      var last, front := q[|q| - 1], q[..|q| - 1];
      var rest := last.remaining - amount;
      if rest < -t && last.engaged.None? {
        CancelIsLastOut(front, -rest, t);
        OneMoreOut(q, amount, t, MatchCancel(front, -rest, t));
      } else {
        EndsAtLast(q, amount, t);
      }
    }
  }

  /** What the answer says of the change, given what was matched. */
  ghost predicate Tells(
      o: Order, o': Order, told: UpdateOutcome, id: string, side: Side, amount: real, m: CancelMatch)
  {
    match told
    case Push(more) =>
      && side == o.side && more == amount && o' == o.(remaining := o'.remaining, updates := o'.updates)
      && o'.remaining - o.remaining == more
      && |o'.updates| == |o.updates| + 1 && o'.updates[..|o.updates|] == o.updates
      && IsNew(o'.updates[|o.updates|], id, side, amount, amount)
    case Flip(newSide, flipped) =>
      && side != o.side && o.engagedSide.None?
      && newSide == side && o'.remaining == flipped && m.unmatched == Some(flipped)
      && o' == o.(side := side, remaining := flipped, updates := o'.updates,
                  engagedUpdates := o.engagedUpdates + m.engaged, closedUpdates := o.closedUpdates + m.closed)
      && |o'.updates| == |m.updates| + 1 && o'.updates[..|m.updates|] == m.updates
      && IsNew(o'.updates[|m.updates|], id, side, amount, flipped)
    case Reduce(removed, remaining) =>
      && side != o.side && remaining == o'.remaining
      && o' == o.(remaining := remaining, updates := m.updates, engagedUpdates := o.engagedUpdates + m.engaged,
                  closedUpdates := o.closedUpdates + m.closed)
      && (m.unmatched.None? ==> removed == amount == o.remaining - remaining)
      && (m.unmatched.Some? ==> o.engagedSide.Some? && remaining == 0.0 && removed == amount - m.unmatched.value)
  }

  /** The user is told by how much and to what the order's remaining collateral changes. */
  lemma UpdateTells(o: Order, id: string, side: Side, amount: real, t: real)
    requires 0.0 <= t
    ensures var (o', told) := UpdateOrder(o, id, side, amount, t); var m := MatchCancel(o.updates, amount, t);
      Tells(o, o', told, id, side, amount, m) && IsLastOut(o.updates, amount, t, m)
  {
    CancelIsLastOut(o.updates, amount, t);
    hide IsLastOut, MatchCancel;
  }

  /** An order that outgrows the whole queue of an engaged order is told that it removed just what was queued. That is
      the change of the remaining collateral exactly when this was the queue's. */
  lemma OutgrownIsTheQueue(o: Order, id: string, side: Side, amount: real, t: real)
    requires 0.0 <= t && Structured(o) && side != o.side && o.engagedSide.Some?
    requires MatchCancel(o.updates, amount, t).unmatched.Some?
    ensures var (o', told) := UpdateOrder(o, id, side, amount, t);
      && told == Reduce(QueueTotal(o.updates), 0.0) && o'.remaining == 0.0 && o'.updates == []
      && (told.removedCollateral == o.remaining - o'.remaining <==> o.remaining == QueueTotal(o.updates))
  {
    CancelIsLastOut(o.updates, amount, t);
    CancelStructure(o.updates, amount, t);
    OutgrownTotal(o.updates, amount, t, MatchCancel(o.updates, amount, t));
    hide IsLastOut, MatchCancel, QueueTotal;
  }

  predicate IsNew(u: Update, id: string, side: Side, original: real, remaining: real) {
    && u.id == id && u.side == side && u.original == original && u.remaining == remaining
    && u.engaged == None && u.spent == u.filled == u.fee == 0.0
  }

  /** What an order outgrows is the whole queue. */
  lemma OutgrownTotal(q: seq<Update>, amount: real, t: real, m: CancelMatch)
    requires IsLastOut(q, amount, t, m) && m.unmatched.Some? && m.updates == []
    ensures amount - m.unmatched.value == QueueTotal(q)
  {
    var k := |m.closed|;
    if k == |q| {
      assert q[|q| - k..] == q;
    } else {
      assert q[..|q| - k] == [q[0]] && |q| - k == 1;
      assert q == [q[0]] + q[1..] && q[|q| - k..] == q[1..];
    }
  }

  // Engaging

  /** The order's totals after so much was taken from its remaining collateral. */
  predicate Takes(o: Order, o': Order, taken: real) {
    && o' == o.(remaining := o'.remaining, engaged := o'.engaged, engagedSide := Some(o.side),
                updates := o'.updates, engagedUpdates := o'.engagedUpdates)
    && o.remaining - o'.remaining == taken
    && o'.engaged.Some? && o'.engaged.value - OrZero(o.engaged) == taken
  }

  /** Engaging any updates takes from the front, and the order by what was not left over. */
  lemma EngageExactly(o: Order, amount: real, t: real) returns (m: EngageMatch)
    requires 0.0 <= t
    ensures IsGreedy(o.updates, amount, t, m)
    ensures var (o', left) := SolverEngage(o, amount, t);
      && left == m.unmatched && o'.updates == m.updates && o'.engagedUpdates == o.engagedUpdates + m.engaged
      && Takes(o, o', amount - if left.Some? then left.value else 0.0)
  {
    EngageIsGreedy(o.updates, amount, t);
    m := MatchEngage(o.updates, amount, t);
    hide IsGreedy, MatchEngage;
  }

  /** So much less is left of the update and so much more is engaged. */
  predicate Moved(u: Update, u': Update, a: real) {
    && u' == u.(remaining := u'.remaining, engaged := u'.engaged)
    && u.remaining - u'.remaining == a && u'.engaged.Some? && u'.engaged.value - OrZero(u.engaged) == a
  }

  /** Engaging one update works for the front one, which gives what it has of the amount and leaves the queue when
      nothing worth counting is left of it, and for the last fully engaged one, which gives nothing more. What could not
      be taken is reported only when it is worth counting. */
  lemma EngageOneExactly(o: Order, id: string, amount: real, t: real)
    ensures var e := SolverEngageOne(o, id, amount, t);
      var again := o.engagedUpdates != [] && o.engagedUpdates[|o.engagedUpdates| - 1].id == id;
      var front := o.updates != [] && o.updates[0].id == id;
      && (e.EngagedOne? <==> if again then amount < t else front)
      && (e.EngagedOne? && again ==>
            && e.unmatched.None? && e.remaining == 0.0 && Takes(o, e.order, amount)
            && e.order.updates == o.updates && e.order.engagedUpdates == o.engagedUpdates)
      && (e.EngagedOne? && !again ==>
            var given := if amount <= o.updates[0].remaining then amount else o.updates[0].remaining;
            var left := o.updates[0].remaining - given;
            && e.remaining == left
            && e.unmatched == (if amount - given < t then None else Some(amount - given))
            && Takes(o, e.order, if amount - given < t then amount else given)
            && if left < t
               then
                 && e.order.updates == o.updates[1..]
                 && |e.order.engagedUpdates| == |o.engagedUpdates| + 1
                 && e.order.engagedUpdates[..|o.engagedUpdates|] == o.engagedUpdates
                 && Moved(o.updates[0], e.order.engagedUpdates[|o.engagedUpdates|], given)
               else
                 && e.order.engagedUpdates == o.engagedUpdates && |e.order.updates| == |o.updates|
                 && e.order.updates[1..] == o.updates[1..] && Moved(o.updates[0], e.order.updates[0], given))
  {
  }

  // Cancelling by the solver

  lemma {:induction false} Sorted(q: seq<Update>, id: string)
    ensures multiset(Others(q, id)) + multiset(Those(q, id)) == multiset(q)
    ensures (forall u :: u in Others(q, id) ==> u.id != id) && forall u :: u in Those(q, id) ==> u.id == id
  {
    if q != [] {
      Sorted(q[1..], id);
      assert q == [q[0]] + q[1..];
    }
  }

  /** A cancelled ID leaves the queue with all that was left of its updates. */
  lemma CancelExactly(o: Order, id: string) returns (closed: seq<Update>)
    ensures var o' := SolverCancel(o, id);
      && o' == o.(updates := o'.updates, remaining := o.remaining - QueueTotal(closed),
                  closedUpdates := o.closedUpdates + closed)
      && multiset(o'.updates) + multiset(closed) == multiset(o.updates)
      && (forall u :: u in o'.updates ==> u.id != id) && forall u :: u in closed ==> u.id == id
  {
    closed := Those(o.updates, id);
    Sorted(o.updates, id);
  }

  /** The update that draining reports is the last closed one with the ID. */
  lemma {:induction false} LastOfIsLast(q: seq<Update>, id: string) returns (i: nat)
    requires LastOf(q, id).Some?
    ensures i < |q| && LastOf(q, id) == Some(q[i]) && q[i].id == id
    ensures forall j :: i < j < |q| ==> q[j].id != id
  {
    i := |q| - 1;
    if q[i].id != id {
      i := LastOfIsLast(q[..i], id);
    }
  }

  // Confirming collateral

  /** The fee is refused exactly when no queued update has the ID, or the first one that does would be left with less
      than the collateral that arrived, beyond the tolerance. Otherwise update and order are charged, and nothing else
      changes. */
  lemma ReadyExactly(o: Order, id: string, collateral: real, fees: real, t: real) returns (i: nat)
    ensures i <= |o.updates| && (forall j :: 0 <= j < i ==> o.updates[j].id != id)
    ensures i < |o.updates| ==> o.updates[i].id == id
    ensures var r := CollateralReady(o, id, collateral, fees, t);
      && (r.None? <==> i == |o.updates| || o.updates[i].remaining - fees < collateral - t)
      && (r.Some? ==>
            var o' := r.value;
            && o' == o.(updates := o'.updates, remaining := o'.remaining, spent := o'.spent, fees := o'.fees)
            && o.remaining - o'.remaining == o'.spent - o.spent == o'.fees - o.fees == fees
            && |o'.updates| == |o.updates|
            && (forall j :: 0 <= j < |o.updates| && j != i ==> o'.updates[j] == o.updates[j])
            && var u, u' := o.updates[i], o'.updates[i];
               && u' == u.(remaining := u'.remaining, spent := u'.spent, fee := u'.fee)
               && u.remaining - u'.remaining == u'.spent - u.spent == u'.fee - u.fee == fees)
  {
    i := FindUpdate(o.updates, id);
  }

  // Filling

  predicate Filled(u: Update, u': Update, spent: real, quantity: real) {
    && u.engaged.Some? && u'.engaged.Some? && u.engaged.value - u'.engaged.value == spent
    && u' == u.(engaged := u'.engaged, spent := u.spent + spent, filled := u.filled + quantity)
  }

  /** A fill goes to the front of the queue or else to the first fully engaged update with the ID. It is refused exactly
      when that is missing or not engaged, or the order never was. */
  lemma FillExactly(o: Order, id: string, spent: real, quantity: real) returns (i: nat)
    ensures i <= |o.engagedUpdates| && (forall j :: 0 <= j < i ==> o.engagedUpdates[j].id != id)
    ensures i < |o.engagedUpdates| ==> o.engagedUpdates[i].id == id
    ensures var r := FillOrder(o, id, spent, quantity);
      var front := o.updates != [] && o.updates[0].id == id;
      && (r.Some? <==>
            && o.engaged.Some?
            && (front ==> o.updates[0].engaged.Some?)
            && (!front ==> i < |o.engagedUpdates| && o.engagedUpdates[i].engaged.Some?))
      && (r.Some? ==>
            var o' := r.value;
            && o'.engaged.Some? && o.engaged.value - o'.engaged.value == spent == o'.spent - o.spent
            && o' == o.(engaged := o'.engaged, spent := o'.spent, filled := o.filled + quantity,
                        updates := o'.updates, engagedUpdates := o'.engagedUpdates)
            && (front ==>
                  && o'.engagedUpdates == o.engagedUpdates && |o'.updates| == |o.updates|
                  && Filled(o.updates[0], o'.updates[0], spent, quantity) && o'.updates[1..] == o.updates[1..])
            && (!front ==>
                  && o'.updates == o.updates && |o'.engagedUpdates| == |o.engagedUpdates|
                  && Filled(o.engagedUpdates[i], o'.engagedUpdates[i], spent, quantity)
                  && forall j :: 0 <= j < |o.engagedUpdates| && j != i ==> o'.engagedUpdates[j] == o.engagedUpdates[j]))
  {
    i := FindUpdate(o.engagedUpdates, id);
  }

  // Totals over runs

  function SpentOf(u: Update): real { u.spent }

  function FilledOf(u: Update): real { u.filled }

  function FeeOf(u: Update): real { u.fee }

  /** The total over all updates, whether queued, fully engaged or closed. */
  function Total(o: Order, f: Update -> real): real {
    SumBy(o.updates, f) + SumBy(o.engagedUpdates, f) + SumBy(o.closedUpdates, f)
  }

  /** A figure that cancelling and engaging do not touch, and that starts at nothing. */
  ghost predicate Untouched(f: Update -> real) {
    && (forall u: Update, x: real :: f(u.(remaining := x)) == f(u))
    && (forall u: Update, a: real :: f(IndexOrderSpec.Engage(u, a)) == f(u))
    && (forall id, side, a: real :: f(NewUpdate(id, side, a)) == 0.0)
  }

  lemma Remains(f: Update -> real, u: Update, x: real)
    requires Untouched(f)
    ensures f(u.(remaining := x)) == f(u)
  {
  }

  lemma Engages(f: Update -> real, u: Update, a: real)
    requires Untouched(f)
    ensures f(IndexOrderSpec.Engage(u, a)) == f(u)
  {
  }

  lemma NoneTotal(f: Update -> real)
    ensures SumBy([], f) == 0.0
  {
  }

  lemma NewIsUntouched(f: Update -> real, id: string, side: Side, amount: real)
    requires Untouched(f)
    ensures f(NewUpdate(id, side, amount)) == 0.0
  {
  }

  lemma AddLast(q: seq<Update>, u: Update, f: Update -> real)
    ensures SumBy(q + [u], f) == SumBy(q, f) + f(u)
  {
    SumByAppend(q, [u], f);
    SumByOne(u, f);
  }

  lemma AddFirst(u: Update, q: seq<Update>, f: Update -> real)
    ensures SumBy([u] + q, f) == f(u) + SumBy(q, f)
  {
    assert ([u] + q)[1..] == q;
  }

  lemma {:induction false} CancelKeepsTotal(q: seq<Update>, amount: real, t: real, f: Update -> real)
    requires Untouched(f)
    ensures var m := MatchCancel(q, amount, t);
      SumBy(m.updates, f) + SumBy(m.engaged, f) + SumBy(m.closed, f) == SumBy(q, f)
  {
    NoneTotal(f);
    if q != [] {
      hide SumBy, Untouched;
      var last, front := q[|q| - 1], q[..|q| - 1];
      var rest := last.remaining - amount;
      LastTotal(q, f);
      if rest >= t {
        Remains(f, last, rest);
        AddLast(front, last.(remaining := rest), f);
      } else if last.engaged.Some? {
        Remains(f, last, 0.0);
        SumByOne(last.(remaining := 0.0), f);
      } else if rest < -t {
        CancelKeepsTotal(front, -rest, t, f);
        AddFirst(last, MatchCancel(front, -rest, t).closed, f);
      } else {
        SumByOne(last, f);
      }
    }
  }

  lemma LastTotal(q: seq<Update>, f: Update -> real)
    requires q != []
    ensures SumBy(q, f) == SumBy(q[..|q| - 1], f) + f(q[|q| - 1])
  {
    assert q == q[..|q| - 1] + [q[|q| - 1]];
    AddLast(q[..|q| - 1], q[|q| - 1], f);
  }

  lemma {:induction false} EngageKeepsTotal(q: seq<Update>, amount: real, t: real, f: Update -> real)
    requires Untouched(f)
    ensures var m := MatchEngage(q, amount, t);
      SumBy(m.updates, f) + SumBy(m.engaged, f) == SumBy(q, f)
  {
    if q != [] {
      var rest := q[0].remaining - amount;
      var full := IndexOrderSpec.Engage(q[0], q[0].remaining);
      SumByOne(full, f);
      Engages(f, q[0], q[0].remaining);
      Engages(f, q[0], amount);
      if rest >= t {
        AddFirst(IndexOrderSpec.Engage(q[0], amount), q[1..], f);
      } else if rest < -t {
        EngageKeepsTotal(q[1..], -rest, t, f);
        AddFirst(full, MatchEngage(q[1..], -rest, t).engaged, f);
      }
    }
  }

  lemma AfterCancelTotal(o: Order, amount: real, t: real, f: Update -> real)
    requires Untouched(f)
    ensures Total(AfterCancel(o, MatchCancel(o.updates, amount, t)), f) == Total(o, f)
  {
    CancelKeepsTotal(o.updates, amount, t, f);
    hide MatchCancel, Untouched, SumBy;
    var m := MatchCancel(o.updates, amount, t);
    SumByAppend(o.engagedUpdates, m.engaged, f);
    SumByAppend(o.closedUpdates, m.closed, f);
  }

  /** An update that is pushed on whatever is queued. */
  lemma PushKeepsTotal(o: Order, o': Order, u: Update, f: Update -> real)
    requires f(u) == 0.0 && o'.updates == o.updates + [u]
    requires o'.engagedUpdates == o.engagedUpdates && o'.closedUpdates == o.closedUpdates
    ensures Total(o', f) == Total(o, f)
  {
    AddLast(o.updates, u, f);
  }

  lemma SendKeepsTotal(o: Order, id: string, side: Side, amount: real, t: real, f: Update -> real)
    requires Untouched(f)
    ensures Total(UpdateOrder(o, id, side, amount, t).0, f) == Total(o, f)
  {
    AfterCancelTotal(o, amount, t, f);
    NewIsUntouched(f, id, side, amount);
    var u, o' := NewUpdate(id, side, amount), UpdateOrder(o, id, side, amount, t).0;
    var m := MatchCancel(o.updates, amount, t);
    if side == o.side {
      hide MatchCancel, Total, Untouched;
      PushKeepsTotal(o, o', u, f);
    } else if m.unmatched.Some? && o.engagedSide.None? {
      Remains(f, u, m.unmatched.value);
      hide MatchCancel, Total, Untouched;
      PushKeepsTotal(AfterCancel(o, m), o', u.(remaining := m.unmatched.value), f);
    } else {
      hide MatchCancel, Untouched, SumBy;
    }
  }

  lemma EngageAnyKeepsTotal(o: Order, amount: real, t: real, f: Update -> real)
    requires Untouched(f)
    ensures Total(SolverEngage(o, amount, t).0, f) == Total(o, f)
  {
    EngageKeepsTotal(o.updates, amount, t, f);
    hide MatchEngage;
    SumByAppend(o.engagedUpdates, MatchEngage(o.updates, amount, t).engaged, f);
  }

  lemma EngageOneKeepsTotal(o: Order, id: string, amount: real, t: real, f: Update -> real)
    requires Untouched(f) && SolverEngageOne(o, id, amount, t).EngagedOne?
    ensures Total(SolverEngageOne(o, id, amount, t).order, f) == Total(o, f)
  {
    if !FullyEngaged(o, id) {
      var u := IndexOrderSpec.Engage(o.updates[0], Min(amount, o.updates[0].remaining));
      SumByUpdate(o.updates, 0, u, f);
      SumByAppend(o.engagedUpdates, [u], f);
      SumByOne(u, f);
    }
  }

  lemma CompleteKeepsTotal(o: Order, id: string, f: Update -> real)
    requires SolverComplete(o, id).Some?
    ensures Total(SolverComplete(o, id).value, f) == Total(o, f)
  {
    var i := FindUpdate(o.engagedUpdates, id);
    SumByRemove(o.engagedUpdates, i, f);
    SumByAppend(o.closedUpdates, [o.engagedUpdates[i]], f);
    SumByOne(o.engagedUpdates[i], f);
  }

  lemma {:induction false} SplitKeepsTotal(q: seq<Update>, id: string, f: Update -> real)
    ensures SumBy(Others(q, id), f) + SumBy(Those(q, id), f) == SumBy(q, f)
  {
    if q != [] {
      SplitKeepsTotal(q[1..], id, f);
      SumByAppend([q[0]], Others(q[1..], id), f);
      SumByAppend([q[0]], Those(q[1..], id), f);
      SumByOne(q[0], f);
    }
  }

  lemma CancelAllKeepsTotal(o: Order, id: string, f: Update -> real)
    ensures Total(SolverCancel(o, id), f) == Total(o, f)
  {
    SplitKeepsTotal(o.updates, id, f);
    SumByAppend(o.closedUpdates, Those(o.updates, id), f);
  }

  /** What charging and filling add. */
  lemma ChargesTotal(o: Order, id: string, collateral: real, fees: real, t: real, f: Update -> real)
    requires CollateralReady(o, id, collateral, fees, t).Some?
    ensures var i := FindUpdate(o.updates, id); var o' := CollateralReady(o, id, collateral, fees, t).value;
      Total(o', f) == Total(o, f) + f(o'.updates[i]) - f(o.updates[i])
  {
    var i := FindUpdate(o.updates, id);
    SumByUpdate(o.updates, i, CollateralReady(o, id, collateral, fees, t).value.updates[i], f);
  }

  lemma FillsTotal(o: Order, id: string, spent: real, quantity: real, f: Update -> real) returns (u: Update)
    requires FillOrder(o, id, spent, quantity).Some?
    ensures Total(FillOrder(o, id, spent, quantity).value, f)
         == Total(o, f) + f(FillUpdate(u, spent, quantity)) - f(u)
  {
    var p := FindEngaged(o, id);
    if p.AtFront? {
      u := o.updates[0];
      SumByUpdate(o.updates, 0, FillUpdate(u, spent, quantity), f);
    } else {
      u := o.engagedUpdates[p.i];
      SumByUpdate(o.engagedUpdates, p.i, FillUpdate(u, spent, quantity), f);
    }
  }

  ghost predicate TotalsAgree(o: Order) {
    o.spent == Total(o, SpentOf) && o.filled == Total(o, FilledOf) && o.fees == Total(o, FeeOf)
  }

  lemma FiguresAreUntouched()
    ensures Untouched(SpentOf) && Untouched(FilledOf) && Untouched(FeeOf)
  {
  }

  /** An operation that charges and fills nothing. */
  lemma StepKeepsTotal(o: Order, op: Op, t: real, f: Update -> real)
    requires Untouched(f) && !op.Confirm? && !op.Fill?
    ensures Total(Apply(o, op, t), f) == Total(o, f)
  {
    hide Untouched, Total, UpdateOrder, SolverEngage, SolverEngageOne, SolverComplete, SolverCancel;
    match op
    case Send(id, side, a) => SendKeepsTotal(o, id, side, a, t, f);
    case EngageAny(a) => EngageAnyKeepsTotal(o, a, t, f);
    case EngageNext(id, a) =>
      if SolverEngageOne(o, id, a, t).EngagedOne? { EngageOneKeepsTotal(o, id, a, t, f); }
    case Complete(id) =>
      if SolverComplete(o, id).Some? { CompleteKeepsTotal(o, id, f); }
    case Cancel(id) => CancelAllKeepsTotal(o, id, f);
  }

  lemma StepKeepsFigures(o: Order, op: Op, t: real)
    requires !op.Confirm? && !op.Fill?
    ensures var o' := Apply(o, op, t); o'.spent == o.spent && o'.filled == o.filled && o'.fees == o.fees
  {
    hide MatchCancel, MatchEngage, MatchEngageOne;
    match op
    case EngageNext(id, a) =>
      if SolverEngageOne(o, id, a, t).EngagedOne? { OneKeepsFigures(o, id, a, t); }
    case _ =>
  }

  lemma OneKeepsFigures(o: Order, id: string, amount: real, t: real)
    requires SolverEngageOne(o, id, amount, t).EngagedOne?
    ensures var o' := SolverEngageOne(o, id, amount, t).order;
      o'.spent == o.spent && o'.filled == o.filled && o'.fees == o.fees
  {
  }

  lemma StepAgrees(o: Order, op: Op, t: real)
    requires TotalsAgree(o)
    ensures TotalsAgree(Apply(o, op, t))
  {
    hide Total;
    FiguresAreUntouched();
    match op
    case Confirm(id, c, fees) =>
      if CollateralReady(o, id, c, fees, t).Some? {
        ChargesTotal(o, id, c, fees, t, SpentOf);
        ChargesTotal(o, id, c, fees, t, FilledOf);
        ChargesTotal(o, id, c, fees, t, FeeOf);
      }
    case Fill(id, spent, quantity) =>
      if FillOrder(o, id, spent, quantity).Some? {
        var u := FillsTotal(o, id, spent, quantity, SpentOf);
        u := FillsTotal(o, id, spent, quantity, FilledOf);
        u := FillsTotal(o, id, spent, quantity, FeeOf);
      }
    case _ =>
      hide Apply, Untouched;
      StepKeepsFigures(o, op, t);
      StepKeepsTotal(o, op, t, SpentOf);
      StepKeepsTotal(o, op, t, FilledOf);
      StepKeepsTotal(o, op, t, FeeOf);
  }

  /** Whatever happens to an index order, what it spent, was filled and was charged is what its updates spent, were
      filled and were charged, the closed ones included. */
  lemma {:induction false} OrderIsItsUpdates(side: Side, ops: seq<Op>, t: real)
    ensures TotalsAgree(Run(side, ops, t))
  {
    if ops != [] {
      OrderIsItsUpdates(side, ops[..|ops| - 1], t);
      hide TotalsAgree, Apply;
      StepAgrees(Run(side, ops[..|ops| - 1], t), ops[|ops| - 1], t);
    }
  }
}
