/** The invoice that closes an order's life. */
module MintInvoice {
  import opened Common
  import opened BatchLots
  import opened UpdateLedger
  import opened OrderProtocol
  import opened OrderBooks
  import Iom = IndexOrderSpec
  import IomTheory = IndexOrderTheory
  import opened BatchFillSpec
  import opened BatchManagerSpec
  import BatchPrices
  import BatchRuns

  // One assignment per lot

  predicate SameLot(a: AssetLot, b: AssetLot) {
    a.symbol == b.symbol && a.lotId == b.lotId
  }

  function Combine(a: AssetLot, b: AssetLot): AssetLot {
    a.(quantity := a.quantity + b.quantity,
       feeShare := a.feeShare + b.feeShare,
       remaining := Min(a.remaining, b.remaining))
  }

  /** Adds an assignment to the lot it belongs to. */
  function Merge(acc: seq<AssetLot>, lot: AssetLot): seq<AssetLot> {
    if acc == [] then [lot]
    else if SameLot(acc[0], lot) then [Combine(acc[0], lot)] + acc[1..]
    else [acc[0]] + Merge(acc[1..], lot)
  }

  /** The price under which an assignment is merged: that of the assignment of its lot that came first. */
  function PriceFor(acc: seq<AssetLot>, lot: AssetLot): real {
    if acc == [] then lot.price else if SameLot(acc[0], lot) then acc[0].price else PriceFor(acc[1..], lot)
  }

  /** What is left of the lot after the assignment, under the symbol without its quote currency. */
  function Assigned(lot: AssetLot, base: string -> string): AssetLot {
    lot.(remaining := lot.remaining - lot.quantity, symbol := base(lot.symbol))
  }

  /** Assignments are taken from the back. */
  function Compress(lots: seq<AssetLot>, acc: seq<AssetLot>, base: string -> string): seq<AssetLot> {
    if lots == [] then acc
    else Compress(lots[..|lots| - 1], Merge(acc, Assigned(lots[|lots| - 1], base)), base)
  }

  /** What that makes of an assignment's cost. */
  function Misprice(acc: seq<AssetLot>, lot: AssetLot): real {
    (PriceFor(acc, lot) - lot.price) * lot.quantity
  }

  /** How much more the merged assignments are worth than they cost, because they took another one's price. */
  function Mispriced(lots: seq<AssetLot>, acc: seq<AssetLot>, base: string -> string): real {
    if lots == [] then 0.0
    else
      var x := Assigned(lots[|lots| - 1], base);
      Misprice(acc, x) + Mispriced(lots[..|lots| - 1], Merge(acc, x), base)
  }

  // The invoice

  datatype Invoice = Invoice(
    id: string,
    paymentId: string,
    filledQuantity: real,
    totalAmount: real,
    amountPaid: real,
    amountRemaining: real,
    managementFee: real,
    assetsValue: real,
    exchangeFee: real,
    fillRate: real,
    lots: seq<AssetLot>)

  function ValueOf(a: AssetLot): real { a.price * a.quantity }

  function FeeOf(a: AssetLot): real { a.feeShare }

  /** There is no invoice for an update that was paid in for nothing but the fee. */
  function TryNew(
      u: Iom.Update, paymentId: string, filledQuantity: real, paid: real, lots: seq<AssetLot>): Option<Invoice> {
    if u.original - u.fee == 0.0 then None
    else
      Some(Invoice(u.id, paymentId, filledQuantity, u.original, paid + u.fee, u.original - u.spent, u.fee,
                   SumBy(lots, ValueOf), SumBy(lots, FeeOf), (u.spent - u.fee) / (u.original - u.fee), lots))
  }

  /** The order manager completes the update and drains the closed ones; None when the update is not fully engaged. */
  function Minted(w: World, base: string -> string): Option<Invoice> {
    var o := Iom.SolverComplete(w.order, w.id);
    if o.None? || w.solver.paymentId.None? then None
    else
      var u := Iom.LastOf(o.value.closedUpdates, w.id);
      if u.None? then None
      else
        TryNew(u.value, w.solver.paymentId.value, w.solver.filled, w.solver.routed,
               Compress(w.solver.lots, [], base))
  }

  // Compressing keeps the totals

  /** Assignments of one lot carry its price. */
  ghost predicate OnePrice(lots: seq<AssetLot>) {
    forall a, b :: a in lots && b in lots && SameLot(a, b) ==> a.price == b.price
  }

  lemma CombineCosts(a: AssetLot, b: AssetLot)
    ensures CostOf(Combine(a, b)) == CostOf(a) + CostOf(b) + (a.price - b.price) * b.quantity
  {
    assert (a.quantity + b.quantity) * a.price == a.quantity * a.price + b.quantity * a.price;
    assert (a.price - b.price) * b.quantity == b.quantity * a.price - b.quantity * b.price;
  }

  lemma MispriceSteps(acc: seq<AssetLot>, lot: AssetLot)
    ensures Misprice(acc, lot) ==
      if acc == [] then 0.0
      else if SameLot(acc[0], lot) then (acc[0].price - lot.price) * lot.quantity
      else Misprice(acc[1..], lot)
  {
    SamePriceCosts(lot.price, lot.quantity);
  }

  lemma SamePriceCosts(price: real, quantity: real)
    ensures (price - price) * quantity == 0.0
  {
  }

  /** Merging keeps the total quantity and fee, and the cost but for what is priced differently. */
  lemma {:induction false} MergeTotals(acc: seq<AssetLot>, lot: AssetLot)
    ensures var m := Merge(acc, lot);
      && SumBy(m, QuantityOf) == SumBy(acc, QuantityOf) + lot.quantity
      && SumBy(m, FeeOf) == SumBy(acc, FeeOf) + lot.feeShare
      && SumBy(m, CostOf) == SumBy(acc, CostOf) + CostOf(lot) + Misprice(acc, lot)
  {
    hide CostOf, Misprice;
    MispriceSteps(acc, lot);
    if acc == [] {
      SumByOne(lot, QuantityOf);
      SumByOne(lot, FeeOf);
      SumByOne(lot, CostOf);
    } else if SameLot(acc[0], lot) {
      CombineCosts(acc[0], lot);
      assert Merge(acc, lot)[1..] == acc[1..];
    } else {
      MergeTotals(acc[1..], lot);
      assert Merge(acc, lot)[1..] == Merge(acc[1..], lot);
    }
  }

  ghost predicate Distinct(lots: seq<AssetLot>) {
    forall i, j :: 0 <= i < j < |lots| ==> !SameLot(lots[i], lots[j])
  }

  /** The assignment's lot and price are those of one of the given. */
  ghost predicate PricedLike(a: AssetLot, lots: seq<AssetLot>) {
    exists b :: b in lots && SameLot(a, b) && b.price == a.price
  }

  lemma PricedLikeItself(a: AssetLot, lots: seq<AssetLot>)
    requires a in lots
    ensures PricedLike(a, lots)
  {
  }

  lemma {:induction false} MergeLots(acc: seq<AssetLot>, lot: AssetLot)
    ensures forall a :: a in Merge(acc, lot) ==> PricedLike(a, acc + [lot])
    ensures Distinct(acc) ==> Distinct(Merge(acc, lot))
  {
    var m := Merge(acc, lot);
    if acc == [] {
      PricedLikeItself(lot, acc + [lot]);
    } else if SameLot(acc[0], lot) {
      forall a | a in m ensures PricedLike(a, acc + [lot]) {
        if a == m[0] {
          assert acc[0] in acc + [lot];
        } else {
          PricedLikeItself(a, acc + [lot]);
        }
      }
    } else {
      MergeLots(acc[1..], lot);
      forall a | a in m ensures PricedLike(a, acc + [lot]) {
        if a == m[0] {
          PricedLikeItself(a, acc + [lot]);
        } else {
          assert PricedLike(a, acc[1..] + [lot]);
          var b :| b in acc[1..] + [lot] && SameLot(a, b) && b.price == a.price;
          assert b in acc + [lot];
        }
      }
      if Distinct(acc) {
        StillDistinct(acc, lot);
      }
    }
  }

  lemma StillDistinct(acc: seq<AssetLot>, lot: AssetLot)
    requires acc != [] && Distinct(acc) && !SameLot(acc[0], lot) && Distinct(Merge(acc[1..], lot))
    requires forall a :: a in Merge(acc[1..], lot) ==> PricedLike(a, acc[1..] + [lot])
    ensures Distinct(Merge(acc, lot))
  {
    var rest := Merge(acc[1..], lot);
    forall a | a in rest ensures !SameLot(acc[0], a) {
      assert PricedLike(a, acc[1..] + [lot]);
    }
  }

  function AssignedAll(lots: seq<AssetLot>, base: string -> string): seq<AssetLot> {
    seq(|lots|, i requires 0 <= i < |lots| => Assigned(lots[i], base))
  }

  lemma MergedOnePrice(acc: seq<AssetLot>, lot: AssetLot, others: seq<AssetLot>)
    requires OnePrice(acc + [lot] + others)
    ensures OnePrice(Merge(acc, lot) + others)
  {
    var all, merged := acc + [lot] + others, Merge(acc, lot) + others;
    MergeLots(acc, lot);
    forall a, b | a in merged && b in merged && SameLot(a, b) ensures a.price == b.price {
      var a' := Origin(a, acc, lot, others);
      var b' := Origin(b, acc, lot, others);
      assert a' in all && b' in all && SameLot(a', b');
    }
  }

  lemma Origin(a: AssetLot, acc: seq<AssetLot>, lot: AssetLot, others: seq<AssetLot>) returns (b: AssetLot)
    requires a in Merge(acc, lot) + others
    requires forall x :: x in Merge(acc, lot) ==> PricedLike(x, acc + [lot])
    ensures b in acc + [lot] + others && SameLot(a, b) && b.price == a.price
  {
    if a in Merge(acc, lot) {
      assert PricedLike(a, acc + [lot]);
      b :| b in acc + [lot] && SameLot(a, b) && b.price == a.price;
    } else {
      b := a;
    }
  }

  lemma LastAdds<T>(xs: seq<T>, f: T -> real)
    requires xs != []
    ensures SumBy(xs, f) == SumBy(xs[..|xs| - 1], f) + f(xs[|xs| - 1])
  {
    var front, last := xs[..|xs| - 1], xs[|xs| - 1];
    assert xs == front + [last];
    SumByAppend(front, [last], f);
    SumByOne(last, f);
  }

  lemma LastTotals(lots: seq<AssetLot>, base: string -> string)
    requires lots != []
    ensures var front, last := lots[..|lots| - 1], lots[|lots| - 1]; var x := Assigned(last, base);
      && SumBy(lots, QuantityOf) == SumBy(front, QuantityOf) + x.quantity
      && SumBy(lots, FeeOf) == SumBy(front, FeeOf) + x.feeShare
      && SumBy(lots, CostOf) == SumBy(front, CostOf) + CostOf(x)
  {
    LastAdds(lots, QuantityOf);
    LastAdds(lots, FeeOf);
    LastAdds(lots, CostOf);
  }

  lemma LastMerged(lots: seq<AssetLot>, acc: seq<AssetLot>, base: string -> string)
    requires lots != [] && OnePrice(acc + AssignedAll(lots, base))
    ensures var front, x := lots[..|lots| - 1], Assigned(lots[|lots| - 1], base);
      && OnePrice(Merge(acc, x) + AssignedAll(front, base))
      && forall a :: a in acc && SameLot(a, x) ==> a.price == x.price
  {
    hide OnePrice, Merge, Assigned;
    var front, x := lots[..|lots| - 1], Assigned(lots[|lots| - 1], base);
    assert AssignedAll(lots, base) == AssignedAll(front, base) + [x];
    MovedInFront(acc, x, AssignedAll(front, base));
    MergedOnePrice(acc, x, AssignedAll(front, base));
    NewPrice(acc, x, AssignedAll(front, base));
  }

  /** Compressing leaves one assignment per lot and keeps the total quantity and fee, and the total cost but for what
      takes another assignment's price. */
  lemma {:induction false} CompressTotals(lots: seq<AssetLot>, acc: seq<AssetLot>, base: string -> string)
    ensures var c := Compress(lots, acc, base);
      && SumBy(c, QuantityOf) == SumBy(acc, QuantityOf) + SumBy(lots, QuantityOf)
      && SumBy(c, FeeOf) == SumBy(acc, FeeOf) + SumBy(lots, FeeOf)
      && SumBy(c, CostOf) == SumBy(acc, CostOf) + SumBy(lots, CostOf) + Mispriced(lots, acc, base)
      && (Distinct(acc) ==> Distinct(c))
    decreases |lots|
  {
    hide Distinct, Merge, Assigned, PricedLike, CostOf, QuantityOf, FeeOf, SameLot, Misprice;
    if lots != [] {
      var x := Assigned(lots[|lots| - 1], base);
      MergeLots(acc, x);
      MergeTotals(acc, x);
      CompressTotals(lots[..|lots| - 1], Merge(acc, x), base);
      LastTotals(lots, base);
    }
  }

  lemma {:induction false} PriceIsItsOwn(acc: seq<AssetLot>, lot: AssetLot)
    requires forall a :: a in acc && SameLot(a, lot) ==> a.price == lot.price
    ensures PriceFor(acc, lot) == lot.price
  {
    if acc != [] && !SameLot(acc[0], lot) {
      PriceIsItsOwn(acc[1..], lot);
    }
  }

  /** Assignments of one lot at one price are priced as they cost. */
  lemma {:induction false} OnePriceIsRight(lots: seq<AssetLot>, acc: seq<AssetLot>, base: string -> string)
    requires OnePrice(acc + AssignedAll(lots, base))
    ensures Mispriced(lots, acc, base) == 0.0
    decreases |lots|
  {
    hide OnePrice, Merge, Assigned, AssignedAll, SameLot, PriceFor;
    if lots != [] {
      var x := Assigned(lots[|lots| - 1], base);
      LastMerged(lots, acc, base);
      PriceIsItsOwn(acc, x);
      SamePriceCosts(x.price, x.quantity);
      OnePriceIsRight(lots[..|lots| - 1], Merge(acc, x), base);
    }
  }

  /** As the exchange reports a lot at one price, no run of batches leaves an order with mispriced assignments. */
  lemma LotsAreNotMispriced(
      steps: seq<BatchRuns.Step>, c: BatchManagerSpec.Config, key: string, base: string -> string)
    requires BatchPrices.OnePriceEach(steps) && key in BatchRuns.Run(steps, c).orders
    ensures Mispriced(BatchRuns.Run(steps, c).orders[key].lots, [], base) == 0.0
  {
    hide BatchRuns.Run, BatchPrices.OnePriceEach;
    BatchPrices.OrdersHaveOnePrice(steps, c, key);
    var lots := BatchRuns.Run(steps, c).orders[key].lots;
    forall a, b | a in AssignedAll(lots, base) && b in AssignedAll(lots, base) && SameLot(a, b)
      ensures a.price == b.price
    {
      var i :| 0 <= i < |lots| && a == Assigned(lots[i], base);
      var j :| 0 <= j < |lots| && b == Assigned(lots[j], base);
      assert lots[i] in lots && lots[j] in lots;
    }
    assert [] + AssignedAll(lots, base) == AssignedAll(lots, base);
    OnePriceIsRight(lots, [], base);
  }

  lemma MovedInFront(acc: seq<AssetLot>, x: AssetLot, others: seq<AssetLot>)
    requires OnePrice(acc + (others + [x]))
    ensures OnePrice(acc + [x] + others)
  {
    forall a | a in acc + [x] + others ensures a in acc + (others + [x]) {
    }
  }

  lemma NewPrice(acc: seq<AssetLot>, x: AssetLot, others: seq<AssetLot>)
    requires OnePrice(acc + [x] + others)
    ensures forall a :: a in acc && SameLot(a, x) ==> a.price == x.price
  {
    assert x in acc + [x] + others;
    forall a | a in acc ensures a in acc + [x] + others {
    }
  }

  lemma {:induction false} CostIsValueAndFee(lots: seq<AssetLot>)
    ensures SumBy(lots, CostOf) == SumBy(lots, ValueOf) + SumBy(lots, FeeOf)
  {
    if lots != [] {
      CostIsValueAndFee(lots[1..]);
    }
  }

  // The closing equation

  /** There is an invoice exactly when the payment is authorized, the update is fully engaged, and it was paid in for
      more than the fee. */
  lemma MintedExactly(w: World, u: Iom.Update, base: string -> string)
    requires Holds(w.order, w.id, u) && IomTheory.Structured(w.order)
    ensures Minted(w, base).Some? <==>
      w.solver.paymentId.Some? && Iom.Those(w.order.engagedUpdates, w.id) == [u] && u.original != u.fee
    ensures Minted(w, base).Some? ==>
      Minted(w, base) == TryNew(u, w.solver.paymentId.value, w.solver.filled, w.solver.routed,
          Compress(w.solver.lots, [], base))
  {
    hide Compress, IomTheory.Structured;
    HoldsOne(w.order, w.id, u);
    CompleteMine(w.order, w.id, u);
  }

  /** What was paid in, as the value of the assets, the exchange fees, the management fee and what remains, but for what
      the assets are invoiced above their booked cost; and the fill rate as the share of the paid-in amount less the fee
      that was booked for assets. */
  ghost predicate Balances(v: Invoice, excess: real) {
    && v.totalAmount + excess == v.assetsValue + v.exchangeFee + v.managementFee + v.amountRemaining
    && v.totalAmount != v.managementFee
    && v.fillRate == (v.assetsValue + v.exchangeFee - excess) / (v.totalAmount - v.managementFee)
    && Distinct(v.lots)
  }

  /** Whose order was filled and paid by how much: the invoice is for the update, the authorized payment and everything
      the solver's order was filled with, and counts as paid what was routed together with the fee. */
  ghost predicate Reports(v: Invoice, w: World) {
    && v.id == w.id
    && w.solver.paymentId == Some(v.paymentId)
    && v.filledQuantity == w.solver.filled
    && v.amountPaid - v.managementFee == w.solver.routed
    && v.exchangeFee == SumBy(w.solver.lots, FeeOf)
    && SumBy(v.lots, QuantityOf) == SumBy(w.solver.lots, QuantityOf)
  }

  /** The amount that was routed last. */
  function Routed(steps: seq<Step>): real {
    if steps == [] then 0.0
    else
      match steps[|steps| - 1]
      case Route(amount, _, _) => amount
      case _ => Routed(steps[..|steps| - 1])
  }

  lemma {:induction false} RunRoutes(
      order: Iom.Order, id: string, amount: real, now: int, steps: seq<Step>, t: real, th: Thresholds)
    ensures var w := Run(Begin(order, id, amount, now, t), steps, t, th);
      w.id == id && w.solver.routed == Routed(steps)
    decreases |steps|
  {
    if steps != [] {
      hide Begin, Apply;
      RunRoutes(order, id, amount, now, steps[..|steps| - 1], t, th);
      StepRoutes(Run(Begin(order, id, amount, now, t), steps[..|steps| - 1], t, th), steps[|steps| - 1], t, th);
    }
  }

  lemma StepRoutes(w: World, step: Step, t: real, th: Thresholds)
    ensures var w' := Apply(w, step, t, th);
      w'.id == w.id && w'.solver.routed == if step.Route? then step.amount else w.solver.routed
  {
    hide FillIndexOrder, Iom.CollateralReady, Iom.SolverEngageOne, Iom.FillOrder, IomTheory.Apply;
    match step
    case Fill(positions, e, now) =>
      FillEffect(positions, e, w.solver, now, th);
      hide HandedOut;
    case _ =>
  }

  lemma PaidWhole(v: Invoice, w: World)
    requires Reports(v, w) && w.solver.routed == v.totalAmount - v.managementFee
    ensures v.amountPaid == v.totalAmount
  {
  }

  lemma InvoiceIsOf(u: Iom.Update, paymentId: string, filledQuantity: real, paid: real, lots: seq<AssetLot>)
    requires TryNew(u, paymentId, filledQuantity, paid, lots).Some?
    ensures var v := TryNew(u, paymentId, filledQuantity, paid, lots).value;
      && v.id == u.id && v.paymentId == paymentId && v.filledQuantity == filledQuantity && v.lots == lots
      && v.totalAmount == u.original && v.managementFee == u.fee && v.amountPaid - u.fee == paid
      && v.exchangeFee == SumBy(lots, FeeOf)
  {
  }

  /** An invoice balances but for lots whose cost was not booked and assignments that took another one's price. */
  lemma BookedInvoiceBalances(w: World, u: Iom.Update, loose: real, base: string -> string)
    requires Books(w, u, loose) && Minted(w, base).Some?
    ensures var v := Minted(w, base).value; var mispriced := Mispriced(w.solver.lots, [], base);
      && v.totalAmount == u.original
      && Reports(v, w)
      && Balances(v, mispriced + loose)
      && (OnePrice(AssignedAll(w.solver.lots, base)) ==> mispriced == 0.0)
  {
    hide Minted, Compress, Distinct, OnePrice, Holds, IomTheory.Structured, Mispriced;
    MintedExactly(w, u, base);
    MintedIsOf(w, u);
    InvoiceIsOf(u, w.solver.paymentId.value, w.solver.filled, w.solver.routed, Compress(w.solver.lots, [], base));
    CompressTotals(w.solver.lots, [], base);
    CostIsValueAndFee(Compress(w.solver.lots, [], base));
    NothingIsDistinct();
    if OnePrice(AssignedAll(w.solver.lots, base)) {
      assert [] + AssignedAll(w.solver.lots, base) == AssignedAll(w.solver.lots, base);
      OnePriceIsRight(w.solver.lots, [], base);
    }
  }

  lemma MintedIsOf(w: World, u: Iom.Update)
    requires Holds(w.order, w.id, u)
    ensures u.id == w.id
  {
    HoldsOne(w.order, w.id, u);
  }

  /** The same for every run, late and failing fills and unfitting engagements included: every invoice is for the amount
      that was paid in, reports it as paid when it was routed less the fee, and balances if and only if what assignments
      took at another one's price and what was handed out without being booked cancel out. When every fill succeeds
      nothing is unbooked. */
  lemma InvoiceBalances(
      order: Iom.Order, id: string, amount: real, now: int, steps: seq<Step>, t: real, th: Thresholds,
      base: string -> string)
    requires IomTheory.Structured(order) && Mine(order, id) == []
    requires UndisturbedRun(Begin(order, id, amount, now, t), steps, t, th)
    requires Minted(Run(Begin(order, id, amount, now, t), steps, t, th), base).Some?
    ensures var w0 := Begin(order, id, amount, now, t); var w := Run(w0, steps, t, th);
      var v, excess := Minted(w, base).value, Mispriced(w.solver.lots, [], base) + Loose(w0, steps, t, th);
      && v.totalAmount == amount
      && Reports(v, w) && w.id == id && w.solver.routed == Routed(steps)
      && (Routed(steps) == amount - v.managementFee ==> v.amountPaid == v.totalAmount)
      && Balances(v, excess)
      && (Balances(v, 0.0) <==> excess == 0.0)
      && (OnePrice(AssignedAll(w.solver.lots, base)) ==> Mispriced(w.solver.lots, [], base) == 0.0)
      && (SuccessfulRun(w0, steps, t, th) ==> Loose(w0, steps, t, th) == 0.0)
  {
    hide Run, Begin, UndisturbedRun, SuccessfulRun, IomTheory.Structured, Minted, Distinct, OnePrice, Books, Mispriced,
      Mine, Loose, Reports, Routed;
    var w0 := Begin(order, id, amount, now, t);
    var u := RunsBook(order, id, amount, now, steps, t, th);
    BookedInvoiceBalances(Run(w0, steps, t, th), u, Loose(w0, steps, t, th), base);
    RunRoutes(order, id, amount, now, steps, t, th);
    var v := Minted(Run(w0, steps, t, th), base).value;
    if Routed(steps) == amount - v.managementFee {
      PaidWhole(v, Run(w0, steps, t, th));
    }
    if SuccessfulRun(w0, steps, t, th) {
      var u' := SuccessfulRunsAreBooked(order, id, amount, now, steps, t, th);
    }
  }

  lemma NothingIsDistinct()
    ensures Distinct([])
  {
  }

  // Without a tolerance nothing is ever invoiced

  lemma {:induction false} NotLast(q: seq<Iom.Update>, id: string)
    requires Iom.Those(q, id) == []
    ensures forall x :: x in q ==> x.id != id
  {
    if q != [] {
      NotLast(q[1..], id);
    }
  }

  /** Engaging stops at the end of the update at the latest, and what is left of it is never negative. */
  lemma RequestKeepsQueued(o: Iom.Order, id: string, amount: real, t: real)
    requires t == 0.0 && Iom.Those(o.engagedUpdates, id) == [] && Iom.SolverEngageOne(o, id, amount, t).EngagedOne?
    ensures Iom.SolverEngageOne(o, id, amount, t).order.engagedUpdates == o.engagedUpdates
  {
    NotLast(o.engagedUpdates, id);
  }

  lemma FillKeepsQueued(o: Iom.Order, id: string, spent: real, quantity: real)
    requires Iom.Those(o.engagedUpdates, id) == [] && Iom.FillOrder(o, id, spent, quantity).Some?
    ensures Iom.FillOrder(o, id, spent, quantity).value.engagedUpdates == o.engagedUpdates
  {
    NotLast(o.engagedUpdates, id);
  }

  lemma StepStaysQueued(w: World, step: Step, t: real, th: Thresholds)
    requires t == 0.0 && Undisturbed(w, step) && Iom.Those(w.order.engagedUpdates, w.id) == []
    ensures var w' := Apply(w, step, t, th); w'.id == w.id && Iom.Those(w'.order.engagedUpdates, w.id) == []
  {
    hide FillIndexOrder, IomTheory.Apply, Elsewhere, Iom.SolverEngageOne, Iom.FillOrder;
    match step
    case Request(amount) =>
      if 0 < w.queued && Iom.SolverEngageOne(w.order, w.id, amount, t).EngagedOne? {
        RequestKeepsQueued(w.order, w.id, amount, t);
      }
    case Fill(positions, e, now) =>
      var f := FillIndexOrder(positions, e, w.solver, now, th);
      if f.request.Some? && Iom.FillOrder(w.order, w.id, f.request.value.spent, f.request.value.quantity).Some? {
        FillKeepsQueued(w.order, w.id, f.request.value.spent, f.request.value.quantity);
      }
    case Other(op) => ElsewhereKeepsMine(w.order, op, w.id, t);
    case _ =>
  }

  lemma {:induction false} RunStaysQueued(
      order: Iom.Order, id: string, amount: real, now: int, steps: seq<Step>, t: real, th: Thresholds)
    requires t == 0.0 && IomTheory.Structured(order) && Mine(order, id) == []
    requires UndisturbedRun(Begin(order, id, amount, now, t), steps, t, th)
    ensures var w := Run(Begin(order, id, amount, now, t), steps, t, th);
      w.id == id && Iom.Those(w.order.engagedUpdates, id) == []
    decreases |steps|
  {
    hide Apply, Undisturbed, IomTheory.Structured;
    if steps == [] {
      assert Iom.Those(order.updates, id) == [] && Iom.Those(order.engagedUpdates, id) == [];
    } else {
      RunStaysQueued(order, id, amount, now, steps[..|steps| - 1], t, th);
      StepStaysQueued(Run(Begin(order, id, amount, now, t), steps[..|steps| - 1], t, th), steps[|steps| - 1], t, th);
    }
  }

  /** Without a tolerance no run ever gets an order to an invoice unless an order comes on the opposite side: its update
      stays in the queue however much of it was engaged, and only one among the fully engaged ones can be completed. */
  lemma NoToleranceNoInvoice(
      order: Iom.Order, id: string, amount: real, now: int, steps: seq<Step>, t: real, th: Thresholds,
      base: string -> string)
    requires t == 0.0 && IomTheory.Structured(order) && Mine(order, id) == []
    requires UndisturbedRun(Begin(order, id, amount, now, t), steps, t, th)
    ensures Minted(Run(Begin(order, id, amount, now, t), steps, t, th), base) == None
  {
    hide Run, Begin, UndisturbedRun, IomTheory.Structured, Mine;
    var w := Run(Begin(order, id, amount, now, t), steps, t, th);
    RunStaysQueued(order, id, amount, now, steps, t, th);
    NotLast(w.order.engagedUpdates, id);
  }

  lemma {:induction false} CancelReachesFront(q: seq<Iom.Update>, amount: real, t: real)
    requires t == 0.0 && q != [] && q[0].engaged.Some?
    requires forall i :: 0 < i < |q| ==> q[i].engaged.None?
    requires forall u :: u in q ==> 0.0 <= u.remaining
    ensures Iom.MatchCancel(q, amount, t).engaged ==
      if Iom.QueueTotal(q) < amount then [q[0].(remaining := 0.0)] else []
    decreases |q|
  {
    var last, front := q[|q| - 1], q[..|q| - 1];
    LastAdds(q, Iom.RemainingOf);
    SumByNonNegative(front, Iom.RemainingOf);
    if |q| > 1 && last.remaining < amount {
      CancelReachesFront(front, amount - last.remaining, t);
    }
  }

  /** An order on the opposite side puts a partly engaged update among the fully engaged ones if and only if it is
      larger than all that remains in the queue. Then it can be completed, and invoiced, without a tolerance too. */
  lemma OppositeOrderEngages(w: World, other: string, amount: real, t: real, th: Thresholds)
    requires t == 0.0 && w.order.updates != [] && w.order.updates[0].id == w.id && w.order.updates[0].engaged.Some?
    requires forall i :: 0 < i < |w.order.updates| ==> w.order.updates[i].engaged.None?
    requires forall u :: u in w.order.updates ==> 0.0 <= u.remaining
    requires Iom.Those(w.order.engagedUpdates, w.id) == []
    ensures var w' := Apply(w, Other(IomTheory.Send(other, w.order.side.Opposite(), amount)), t, th);
      Iom.Those(w'.order.engagedUpdates, w.id) ==
        if Iom.QueueTotal(w.order.updates) < amount then [w.order.updates[0].(remaining := 0.0)] else []
  {
    var u := w.order.updates[0].(remaining := 0.0);
    CancelReachesFront(w.order.updates, amount, t);
    ThoseAppend(w.order.engagedUpdates, [u], w.id);
    ThoseOne(u, w.id);
    assert w.order.engagedUpdates + [] == w.order.engagedUpdates;
  }
}
