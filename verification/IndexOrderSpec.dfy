/** The queue of updates behind one user's index order, and what each operation makes of it. */
module IndexOrderSpec {
  import opened Common

  /** `engaged` is absent until the solver first engages the update. */
  datatype Update = Update(
    id: string,
    side: Side,
    original: real,
    remaining: real,
    engaged: Option<real>,
    spent: real,
    filled: real,
    fee: real)

  datatype Order = Order(
    side: Side,
    remaining: real,
    engagedSide: Option<Side>,
    engaged: Option<real>,
    spent: real,
    filled: real,
    fees: real,
    updates: seq<Update>,
    engagedUpdates: seq<Update>,
    closedUpdates: seq<Update>)

  datatype UpdateOutcome =
    | Push(newCollateral: real)
    | Reduce(removedCollateral: real, remainingCollateral: real)
    | Flip(newSide: Side, flippedCollateral: real)

  function NewOrder(side: Side): Order {
    Order(side, 0.0, None, None, 0.0, 0.0, 0.0, [], [], [])
  }

  function NewUpdate(id: string, side: Side, amount: real): Update {
    Update(id, side, amount, amount, None, 0.0, 0.0, 0.0)
  }

  // Cancelling, last in first out

  /** `unmatched` is None when the whole amount was matched. */
  datatype CancelMatch = CancelMatch(
    updates: seq<Update>, engaged: seq<Update>, closed: seq<Update>, unmatched: Option<real>)

  function MatchCancel(q: seq<Update>, amount: real, t: real): CancelMatch {
    if q == [] then CancelMatch([], [], [], Some(amount))
    else
      var last, front := q[|q| - 1], q[..|q| - 1];
      var rest := last.remaining - amount;
      if rest >= t then CancelMatch(front + [last.(remaining := rest)], [], [], None)
      else if last.engaged.Some? then CancelMatch(front, [last.(remaining := 0.0)], [], Some(-rest))
      else if rest < -t then
        var m := MatchCancel(front, -rest, t);
        m.(closed := [last] + m.closed)
      else CancelMatch(front, [], [last], None)
  }

  function AfterCancel(o: Order, m: CancelMatch): Order {
    o.(updates := m.updates,
       engagedUpdates := o.engagedUpdates + m.engaged,
       closedUpdates := o.closedUpdates + m.closed)
  }

  function UpdateOrder(o: Order, id: string, side: Side, amount: real, t: real): (Order, UpdateOutcome) {
    if side != o.side.Opposite() then
      (o.(remaining := o.remaining + amount, updates := o.updates + [NewUpdate(id, side, amount)]), Push(amount))
    else
      var m := MatchCancel(o.updates, amount, t);
      var o' := AfterCancel(o, m);
      match m.unmatched
      case None => (o'.(remaining := o.remaining - amount), Reduce(amount, o.remaining - amount))
      case Some(u) =>
        if o.engagedSide.Some? then (o'.(remaining := 0.0), Reduce(amount - u, 0.0))
        else
          var flipped := NewUpdate(id, side, amount).(remaining := u);
          (o'.(remaining := u, side := side, updates := o'.updates + [flipped]), Flip(side, u))
  }

  // Engaging, first in first out

  datatype EngageMatch = EngageMatch(updates: seq<Update>, engaged: seq<Update>, unmatched: Option<real>)

  function Engage(u: Update, amount: real): Update {
    u.(engaged := PlusSome(u.engaged, amount), remaining := u.remaining - amount)
  }

  function MatchEngage(q: seq<Update>, amount: real, t: real): EngageMatch {
    if q == [] then EngageMatch([], [], Some(amount))
    else
      var rest := q[0].remaining - amount;
      if rest >= t then EngageMatch([Engage(q[0], amount)] + q[1..], [], None)
      else
        var full := Engage(q[0], q[0].remaining);
        if rest < -t then
          var m := MatchEngage(q[1..], -rest, t);
          m.(engaged := [full] + m.engaged)
        else EngageMatch(q[1..], [full], None)
  }

  /** The totals after the solver took `taken` from the order. */
  function AfterEngage(o: Order, taken: real): Order {
    o.(engaged := PlusSome(o.engaged, taken), remaining := o.remaining - taken, engagedSide := Some(o.side))
  }

  function SolverEngage(o: Order, amount: real, t: real): (Order, Option<real>) {
    var m := MatchEngage(o.updates, amount, t);
    var o' := o.(updates := m.updates, engagedUpdates := o.engagedUpdates + m.engaged);
    (AfterEngage(o', amount - OrZero(m.unmatched)), m.unmatched)
  }

  /** `remaining` is what the update has left, `unmatched` what it could not take. */
  datatype EngageOne = EngagedOne(order: Order, remaining: real, unmatched: Option<real>) | EngageFailed

  predicate FullyEngaged(o: Order, id: string) {
    o.engagedUpdates != [] && o.engagedUpdates[|o.engagedUpdates| - 1].id == id
  }

  function MatchEngageOne(o: Order, id: string, amount: real, t: real): EngageOne {
    if FullyEngaged(o, id) then
      if amount < t then EngagedOne(o, 0.0, None) else EngageFailed
    else if o.updates == [] || o.updates[0].id != id then EngageFailed
    else
      var matched := Min(amount, o.updates[0].remaining);
      var u := Engage(o.updates[0], matched);
      var o' := if u.remaining < t then o.(updates := o.updates[1..], engagedUpdates := o.engagedUpdates + [u])
                else o.(updates := o.updates[0 := u]);
      EngagedOne(o', u.remaining, if amount - matched < t then None else Some(amount - matched))
  }

  function SolverEngageOne(o: Order, id: string, amount: real, t: real): EngageOne {
    var m := MatchEngageOne(o, id, amount, t);
    if m.EngageFailed? then m
    else m.(order := AfterEngage(m.order, amount - OrZero(m.unmatched)))
  }

  // Completing, cancelling, confirming collateral, filling

  function FindUpdate(q: seq<Update>, id: string): (i: nat)
    ensures i <= |q| && (i < |q| ==> q[i].id == id)
    ensures forall j :: 0 <= j < i ==> q[j].id != id
  {
    if q == [] || q[0].id == id then 0 else 1 + FindUpdate(q[1..], id)
  }

  function SolverComplete(o: Order, id: string): Option<Order> {
    var i := FindUpdate(o.engagedUpdates, id);
    if i == |o.engagedUpdates| then None
    else Some(o.(closedUpdates := o.closedUpdates + [o.engagedUpdates[i]],
                 engagedUpdates := o.engagedUpdates[..i] + o.engagedUpdates[i + 1..]))
  }

  function Others(q: seq<Update>, id: string): seq<Update> {
    if q == [] then [] else if q[0].id == id then Others(q[1..], id) else [q[0]] + Others(q[1..], id)
  }

  function Those(q: seq<Update>, id: string): seq<Update> {
    if q == [] then [] else if q[0].id == id then [q[0]] + Those(q[1..], id) else Those(q[1..], id)
  }

  /** The last update with an ID. */
  function LastOf(q: seq<Update>, id: string): (u: Option<Update>)
    ensures u.Some? ==> u.value.id == id && u.value in q
    ensures u.None? ==> forall x :: x in q ==> x.id != id
  {
    if q == [] then None else if q[|q| - 1].id == id then Some(q[|q| - 1]) else LastOf(q[..|q| - 1], id)
  }

  function RemainingOf(u: Update): real { u.remaining }

  function QueueTotal(q: seq<Update>): real { SumBy(q, RemainingOf) }

  function SolverCancel(o: Order, id: string): Order {
    o.(updates := Others(o.updates, id),
       closedUpdates := o.closedUpdates + Those(o.updates, id),
       remaining := o.remaining - QueueTotal(Those(o.updates, id)))
  }

  /** Routing fees are charged to the update, unless that would leave it short of the collateral that arrived. */
  function CollateralReady(o: Order, id: string, collateral: real, fees: real, t: real): Option<Order> {
    var i := FindUpdate(o.updates, id);
    if i == |o.updates| then None
    else
      var u := o.updates[i];
      if u.remaining - fees < collateral - t then None
      else
        var u' := u.(spent := u.spent + fees, fee := u.fee + fees, remaining := u.remaining - fees);
        Some(o.(updates := o.updates[i := u'], remaining := o.remaining - fees, spent := o.spent + fees,
                fees := o.fees + fees))
  }

  /** Where engaged updates are looked for: the front of the queue, then the fully engaged ones. */
  datatype Place = AtFront | Among(i: nat) | Nowhere

  function FindEngaged(o: Order, id: string): (p: Place)
    ensures p.AtFront? ==> o.updates != [] && o.updates[0].id == id
    ensures p.Among? ==> p.i < |o.engagedUpdates| && o.engagedUpdates[p.i].id == id
  {
    if o.updates != [] && o.updates[0].id == id then AtFront
    else
      var i := FindUpdate(o.engagedUpdates, id);
      if i < |o.engagedUpdates| then Among(i) else Nowhere
  }

  function FillUpdate(u: Update, spent: real, quantity: real): Update {
    u.(filled := u.filled + quantity, spent := u.spent + spent, engaged := Some(OrZero(u.engaged) - spent))
  }

  function FillOrder(o: Order, id: string, spent: real, quantity: real): Option<Order> {
    var p := FindEngaged(o, id);
    if p.Nowhere? || o.engaged.None? then None
    else
      var u := if p.AtFront? then o.updates[0] else o.engagedUpdates[p.i];
      if u.engaged.None? then None
      else
        var u' := FillUpdate(u, spent, quantity);
        var o' := if p.AtFront? then o.(updates := o.updates[0 := u'])
            else o.(engagedUpdates := o.engagedUpdates[p.i := u']);
        Some(o'.(filled := o.filled + quantity, spent := o.spent + spent, engaged := Some(o.engaged.value - spent)))
  }
}
