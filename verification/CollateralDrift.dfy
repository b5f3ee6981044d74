/** How far the balances of a collateral side can drift from its lots. */
module CollateralDrift {
  import opened Common
  import opened CollateralSpec
  import opened CollateralTheory

  // Drift between the balances and the lots

  /** How much each balance says beyond its open and closed lots. */
  function Gap(s: SideState): Amounts { Balances(s).Minus(LotAmounts(AllLots(s))) }

  const READY := Amounts(-1.0, 1.0, 0.0, 0.0)
  const PREAUTH := Amounts(0.0, -1.0, 1.0, 0.0)
  const SPENT := Amounts(0.0, 0.0, -1.0, 1.0)

  lemma ReadyMovesAlong()
    ensures MovesAlong(FullyReady, MoveToReady, UnconfirmedOf, READY)
  {
  }

  lemma PreauthMovesAlong(c: string, p: string)
    ensures MovesAlong(FullyPreauth(c, p), PartlyPreauth(c, p), ReadyOf, PREAUTH)
  {
  }

  lemma SpentMovesAlong(p: string, t: real)
    ensures MovesAlong(FullySpent(p), PartlySpent(p, t), HeldBy(p), SPENT)
  {
  }

  lemma ReadyAmounts(s: SideState, amount: real, t: real)
    ensures LotAmounts(ReadyLots(s, amount, t))
         == LotAmounts(s.open).Plus(READY.Times(amount - Uncovered(ReadyScan(s, amount, t))))
  {
    hide MovesAlong, LotAmounts, Scan, Moved;
    ReadyMovesAlong();
    MovedAmounts(s.open, FullyReady, MoveToReady, UnconfirmedOf, READY, amount, t);
  }

  lemma PreauthAmounts(s: SideState, c: string, p: string, amount: real, t: real)
    ensures LotAmounts(PreauthLots(s, c, p, amount, t))
         == LotAmounts(s.open).Plus(PREAUTH.Times(amount - Uncovered(PreauthScan(s, amount, t))))
  {
    hide MovesAlong, LotAmounts, Scan, Moved;
    PreauthMovesAlong(c, p);
    MovedAmounts(s.open, FullyPreauth(c, p), PartlyPreauth(c, p), ReadyOf, PREAUTH, amount, t);
  }

  lemma SpentAmounts(s: SideState, p: string, amount: real, t: real)
    ensures LotAmounts(SpentLots(s, p, amount, t))
         == LotAmounts(s.open).Plus(SPENT.Times(amount - Uncovered(ConfirmScan(s, p, amount, t))))
  {
    hide MovesAlong, LotAmounts, Scan, Moved;
    SpentMovesAlong(p, t);
    MovedAmounts(s.open, FullySpent(p), PartlySpent(p, t), HeldBy(p), SPENT, amount, t);
  }

  lemma ReadyGap(s: SideState, amount: real, t: real)
    requires AddReady(s, amount, t).status.Some?
    ensures var s' := AddReady(s, amount, t).side;
      s'.closed == s.closed && Gap(s') == Gap(s).Plus(READY.Times(Uncovered(ReadyScan(s, amount, t))))
  {
    hide ReadyLots, LotAmounts, Uncovered;
    var s' := AddReady(s, amount, t).side;
    ReadyAmounts(s, amount, t);
    LotAmountsAppend(s.open, s.closed);
    LotAmountsAppend(s'.open, s.closed);
  }

  lemma PreauthGap(s: SideState, c: string, p: string, amount: real, t: real)
    requires PreauthSide(s, c, p, amount, t).status.Some?
    ensures var s' := PreauthSide(s, c, p, amount, t).side;
      s'.closed == s.closed && Gap(s') == Gap(s).Plus(PREAUTH.Times(Uncovered(PreauthScan(s, amount, t))))
  {
    hide PreauthLots, LotAmounts, Uncovered;
    var s' := PreauthSide(s, c, p, amount, t).side;
    PreauthAmounts(s, c, p, amount, t);
    LotAmountsAppend(s.open, s.closed);
    LotAmountsAppend(s'.open, s.closed);
  }

  lemma ConfirmGap(s: SideState, p: string, amount: real, t: real)
    requires ConfirmSide(s, p, amount, t).status.Some?
    ensures Gap(ConfirmSide(s, p, amount, t).side) == Gap(s).Plus(SPENT.Times(Uncovered(ConfirmScan(s, p, amount, t))))
  {
    hide LotAmounts, Uncovered, CloseLots, UsedUpIds;
    var s' := ConfirmSide(s, p, amount, t).side;
    var lots := SpentLots(s, p, amount, t);
    SpentAmounts(s, p, amount, t);
    ClosingKeepsLots(lots, s.closed, UsedUpIds(lots[..ConfirmScan(s, p, amount, t).pos], t));
    LotAmountsPermutation(lots + s.closed, AllLots(s'));
    LotAmountsAppend(s.open, s.closed);
    LotAmountsAppend(lots, s.closed);
  }

  // Fresh payment IDs: closing takes the used-up lots and no others

  ghost predicate DistinctIds(lots: seq<Lot>) {
    forall i, j :: 0 <= i < j < |lots| ==> lots[i].paymentId != lots[j].paymentId
  }

  ghost predicate ClosedAreUsedUp(lots: seq<Lot>, t: real) {
    forall l :: l in lots ==> UsedUp(l, t)
  }

  /** Closing by ID takes only lots that every holder of the ID allows. */
  lemma {:induction false} ClosingTakesUsedUp(open: seq<Lot>, closed: seq<Lot>, ids: seq<string>, t: real)
    requires ClosedAreUsedUp(closed, t)
    requires forall l :: l in open && l.paymentId in ids ==> UsedUp(l, t)
    ensures ClosedAreUsedUp(CloseLots(open, closed, ids).closed, t)
    ensures |closed| <= |CloseLots(open, closed, ids).closed|
    ensures DistinctIds(open) ==> DistinctIds(CloseLots(open, closed, ids).open)
  {
    if ids != [] {
      var i := Find(open, ids[0]);
      if i < |open| {
        ClosingTakesUsedUp(open[..i] + open[i + 1..], closed + [open[i]], ids[1..], t);
      }
    }
  }

  lemma {:induction false} UsedUpIdsMeaning(lots: seq<Lot>, t: real)
    ensures forall id :: id in UsedUpIds(lots, t) ==>
      exists i :: 0 <= i < |lots| && lots[i].paymentId == id && UsedUp(lots[i], t)
  {
    if lots != [] {
      UsedUpIdsMeaning(lots[1..], t);
      forall id | id in UsedUpIds(lots, t)
        ensures exists i :: 0 <= i < |lots| && lots[i].paymentId == id && UsedUp(lots[i], t)
      {
        if id in UsedUpIds(lots[1..], t) {
          var i :| 0 <= i < |lots[1..]| && lots[1..][i].paymentId == id && UsedUp(lots[1..][i], t);
          assert lots[i + 1] == lots[1..][i];
        }
      }
    }
  }

  lemma ConfirmClosesUsedUp(s: SideState, p: string, amount: real, t: real)
    requires DistinctIds(s.open) && ClosedAreUsedUp(s.closed, t)
    ensures var s' := Confirm(s, p, amount, t).side;
      DistinctIds(s'.open) && ClosedAreUsedUp(s'.closed, t) && |s.closed| <= |s'.closed|
  {
    hide CloseLots, UsedUpIds, UsedUp, SpentLots, ClosedAreUsedUp, DistinctIds;
    var lots := SpentLots(s, p, amount, t);
    var pos := ConfirmScan(s, p, amount, t).pos;
    SpentIds(s, p, amount, t);
    UsedUpIdsAreUsedUp(lots, pos, t);
    ClosingTakesUsedUp(lots, s.closed, UsedUpIds(lots[..pos], t), t);
  }

  lemma SpentIds(s: SideState, p: string, amount: real, t: real)
    requires DistinctIds(s.open)
    ensures |SpentLots(s, p, amount, t)| == |s.open| && DistinctIds(SpentLots(s, p, amount, t))
  {
    var lots := SpentLots(s, p, amount, t);
    assert forall i :: 0 <= i < |lots| ==> lots[i].paymentId == s.open[i].paymentId;
  }

  lemma UsedUpIdsAreUsedUp(lots: seq<Lot>, pos: nat, t: real)
    requires pos <= |lots| && DistinctIds(lots)
    ensures forall l :: l in lots && l.paymentId in UsedUpIds(lots[..pos], t) ==> UsedUp(l, t)
  {
    hide UsedUpIds, UsedUp;
    UsedUpIdsMeaning(lots[..pos], t);
    forall l | l in lots && l.paymentId in UsedUpIds(lots[..pos], t) ensures UsedUp(l, t) {
      var i :| 0 <= i < pos && lots[..pos][i].paymentId == l.paymentId && UsedUp(lots[..pos][i], t);
      var j :| 0 <= j < |lots| && lots[j] == l;
      assert i == j;
    }
  }

  // Drift over a run

  /** The bounds that each step keeps, with an excess in the spent gap; with them the four gaps cancel out. */
  ghost predicate GapBounds(g: Amounts, nt: real, ct: real, t: real, excess: real) {
    && -(t + ct) <= g.unconfirmed <= nt
    && -(nt + t + ct) <= g.ready
    && g.unconfirmed + g.ready <= nt
    && excess - nt <= g.spent <= excess + nt
    && g.unconfirmed + g.ready + g.preauth + g.spent == 0.0
  }

  ghost predicate Drift(s: SideState, n: nat, t: real, excess: real) {
    && DistinctIds(s.open)
    && ClosedAreUsedUp(s.closed, t)
    && GapBounds(Gap(s), Times(n, t), Times(|s.closed|, t), t, excess)
  }

  lemma {:induction false} UsedUpHoldLittle(lots: seq<Lot>, t: real)
    requires ClosedAreUsedUp(lots, t)
    ensures LotAmounts(lots).unconfirmed <= Times(|lots|, t) && LotAmounts(lots).ready <= Times(|lots|, t)
  {
    if lots != [] {
      assert UsedUp(lots[0], t);
      UsedUpHoldLittle(lots[1..], t);
    }
  }

  lemma {:induction false} KeyTotals(lots: seq<Lot>)
    ensures SumBy(lots, UnconfirmedOf) == LotAmounts(lots).unconfirmed
    ensures SumBy(lots, ReadyOf) == LotAmounts(lots).ready
  {
    if lots != [] {
      KeyTotals(lots[1..]);
    }
  }

  /** When no lot covers the rest, the open lots are drained. */
  lemma DrainedReady(s: SideState, amount: real, t: real)
    requires !ReadyScan(s, amount, t).done
    ensures LotAmounts(ReadyLots(s, amount, t)).unconfirmed == 0.0
  {
    ReadyAmounts(s, amount, t);
    ScanMeaning(s.open, UnconfirmedOf, amount, t);
    KeyTotals(s.open);
    assert s.open[..|s.open|] == s.open;
  }

  lemma DrainedPreauth(s: SideState, c: string, p: string, amount: real, t: real)
    requires !PreauthScan(s, amount, t).done
    ensures LotAmounts(PreauthLots(s, c, p, amount, t)).ready == 0.0
  {
    PreauthAmounts(s, c, p, amount, t);
    ScanMeaning(s.open, ReadyOf, amount, t);
    KeyTotals(s.open);
    assert s.open[..|s.open|] == s.open;
  }

  /** A drained side is off by its balance less what closed lots hold. */
  lemma DrainedGap(s: SideState, t: real)
    requires ClosedAreUsedUp(s.closed, t)
    ensures Gap(s).unconfirmed >= s.unconfirmed - LotAmounts(s.open).unconfirmed - Times(|s.closed|, t)
    ensures Gap(s).ready >= s.ready - LotAmounts(s.open).ready - Times(|s.closed|, t)
  {
    LotAmountsAppend(s.open, s.closed);
    UsedUpHoldLittle(s.closed, t);
  }

  lemma SameIdsDistinct(lots: seq<Lot>, lots': seq<Lot>)
    requires DistinctIds(lots) && Image(lots', IdOf) == Image(lots, IdOf)
    ensures DistinctIds(lots')
  {
    forall i, j | 0 <= i < j < |lots'| ensures lots'[i].paymentId != lots'[j].paymentId {
      assert |Image(lots, IdOf)| == |lots'|;
      assert Image(lots', IdOf)[i] == lots[i].paymentId && Image(lots', IdOf)[j] == lots[j].paymentId;
    }
  }

  lemma ReadyDrift(s: SideState, amount: real, n: nat, t: real, excess: real)
    requires 0.0 <= t && 0.0 <= amount && Drift(s, n, t, excess) && AddReady(s, amount, t).status.Some?
    ensures Drift(AddReady(s, amount, t).side, n + 1, t, excess)
  {
    var s' := AddReady(s, amount, t).side;
    ReadyLow(s, amount, n, t, excess);
    ReadyIds(s, amount, t);
    hide LotAmounts, AddReady, ReadyLots, DistinctIds, ClosedAreUsedUp;
    ReadyGap(s, amount, t);
    UncoveredBounds(s.open, UnconfirmedOf, amount, t);
    ReadyBounds(Gap(s), Uncovered(ReadyScan(s, amount, t)), Times(n, t), Times(|s.closed|, t), t, excess);
  }

  lemma ReadyIds(s: SideState, amount: real, t: real)
    requires DistinctIds(s.open) && AddReady(s, amount, t).status.Some?
    ensures DistinctIds(AddReady(s, amount, t).side.open)
  {
    MovedKeepsView(s.open, ReadyScan(s, amount, t), FullyReady, MoveToReady, IdOf);
    SameIdsDistinct(s.open, AddReady(s, amount, t).side.open);
  }

  lemma ReadyLow(s: SideState, amount: real, n: nat, t: real, excess: real)
    requires 0.0 <= t && Drift(s, n, t, excess) && AddReady(s, amount, t).status.Some?
    ensures Gap(AddReady(s, amount, t).side).unconfirmed >= -(t + Times(|s.closed|, t))
  {
    hide LotAmounts, DistinctIds;
    ReadyGap(s, amount, t);
    if !ReadyScan(s, amount, t).done {
      DrainedReady(s, amount, t);
      DrainedGap(AddReady(s, amount, t).side, t);
    }
  }

  lemma ReadyBounds(g: Amounts, u: real, nt: real, ct: real, t: real, excess: real)
    requires GapBounds(g, nt, ct, t, excess) && -t <= u && 0.0 <= t
    requires g.Plus(READY.Times(u)).unconfirmed >= -(t + ct)
    ensures GapBounds(g.Plus(READY.Times(u)), nt + t, ct, t, excess)
  {
    assert READY.Times(u) == Amounts(-u, u, 0.0, 0.0);
  }

  lemma PreauthDrift(s: SideState, c: string, p: string, amount: real, n: nat, t: real, excess: real)
    requires 0.0 <= t && 0.0 <= amount && Drift(s, n, t, excess) && PreauthSide(s, c, p, amount, t).status.Some?
    ensures Drift(PreauthSide(s, c, p, amount, t).side, n + 1, t, excess)
  {
    var s' := PreauthSide(s, c, p, amount, t).side;
    var u := Uncovered(PreauthScan(s, amount, t));
    PreauthGap(s, c, p, amount, t);
    UncoveredBounds(s.open, ReadyOf, amount, t);
    TimesGrows(0, n, t);
    PreauthLow(s, c, p, amount, n, t, excess);
    PreauthBounds(Gap(s), u, Times(n, t), Times(|s.closed|, t), t, excess);
    MovedKeepsView(s.open, PreauthScan(s, amount, t), FullyPreauth(c, p), PartlyPreauth(c, p), IdOf);
    SameIdsDistinct(s.open, s'.open);
  }

  lemma PreauthLow(s: SideState, c: string, p: string, amount: real, n: nat, t: real, excess: real)
    requires 0.0 <= t && Drift(s, n, t, excess) && PreauthSide(s, c, p, amount, t).status.Some?
    ensures Gap(PreauthSide(s, c, p, amount, t).side).ready >= -(Times(n, t) + t + Times(|s.closed|, t))
  {
    PreauthGap(s, c, p, amount, t);
    TimesGrows(0, n, t);
    if !PreauthScan(s, amount, t).done {
      DrainedPreauth(s, c, p, amount, t);
      DrainedGap(PreauthSide(s, c, p, amount, t).side, t);
    }
  }

  lemma PreauthBounds(g: Amounts, u: real, nt: real, ct: real, t: real, excess: real)
    requires GapBounds(g, nt, ct, t, excess) && -t <= u && 0.0 <= t && 0.0 <= nt
    requires g.Plus(PREAUTH.Times(u)).ready >= -(nt + t + ct)
    ensures GapBounds(g.Plus(PREAUTH.Times(u)), nt + t, ct, t, excess)
  {
    assert PREAUTH.Times(u) == Amounts(0.0, -u, u, 0.0);
  }

  /** What a payment holds over all open lots. */
  function HeldInTotal(s: SideState, p: string): real { SumBy(s.open, HeldBy(p)) }

  /** What a confirmation books although no open lot holds it for the payment, beyond the tolerance. */
  function ExcessOf(s: SideState, op: Op, t: real): real {
    match op
    case Pay(p, amount) =>
      if s.preauth - amount >= -t && ConfirmSide(s, p, amount, t).status.Some?
        && t < Uncovered(ConfirmScan(s, p, amount, t))
      then Uncovered(ConfirmScan(s, p, amount, t)) - t else 0.0
    case _ => 0.0
  }

  function Excess(ops: seq<Op>, t: real): real
    decreases |ops|
  {
    if ops == [] then 0.0
    else Excess(ops[..|ops| - 1], t) + ExcessOf(SafeRun(ops[..|ops| - 1], t), ops[|ops| - 1], t)
  }

  /** A payment that is confirmed for no more than it holds exceeds nothing. */
  lemma NoExcess(s: SideState, p: string, amount: real, t: real)
    requires 0.0 <= t && 0.0 <= amount <= HeldInTotal(s, p) + t
    ensures ExcessOf(s, Pay(p, amount), t) == 0.0
  {
    hide ConfirmSide;
    UncoveredBounds(s.open, HeldBy(p), amount, t);
  }

  lemma ConfirmDrift(s: SideState, p: string, amount: real, n: nat, t: real, excess: real)
    requires 0.0 <= t && 0.0 <= amount
    requires Drift(s, n, t, excess) && ConfirmSide(s, p, amount, t).status.Some? && s.preauth - amount >= -t
    ensures Drift(ConfirmSide(s, p, amount, t).side, n + 1, t, excess + ExcessOf(s, Pay(p, amount), t))
  {
    var s' := ConfirmSide(s, p, amount, t).side;
    ConfirmClosesUsedUp(s, p, amount, t);
    assert DistinctIds(s'.open) && ClosedAreUsedUp(s'.closed, t);
    TimesGrows(|s.closed|, |s'.closed|, t);
    ConfirmGap(s, p, amount, t);
    UncoveredBounds(s.open, HeldBy(p), amount, t);
    SpentBounds(Gap(s), Uncovered(ConfirmScan(s, p, amount, t)), Times(n, t), Times(|s.closed|, t),
                Times(|s'.closed|, t), t, excess, ExcessOf(s, Pay(p, amount), t));
  }

  lemma SpentBounds(g: Amounts, u: real, nt: real, ct: real, ct': real, t: real, excess: real, more: real)
    requires GapBounds(g, nt, ct, t, excess) && -t <= u - more <= t && ct <= ct'
    ensures GapBounds(g.Plus(SPENT.Times(u)), nt + t, ct', t, excess + more)
  {
    assert SPENT.Times(u) == Amounts(0.0, 0.0, -u, u);
  }

  /** What the requests of a run must meet: fresh payment IDs for new lots and nonnegative amounts. */
  ghost predicate Reasonable(ops: seq<Op>, t: real) {
    ops != [] ==>
      var s, op := SafeRun(ops[..|ops| - 1], t), ops[|ops| - 1];
      && Reasonable(ops[..|ops| - 1], t)
      && op.amount >= 0.0
      && (op.Deposit? ==> forall i :: 0 <= i < |s.open| ==> s.open[i].paymentId != op.paymentId)
  }

  lemma DriftLater(s: SideState, n: nat, t: real, excess: real)
    requires 0.0 <= t && Drift(s, n, t, excess)
    ensures Drift(s, n + 1, t, excess)
  {
  }

  lemma DepositDrift(s: SideState, p: string, num: Option<nat>, a: real, n: nat, t: real, excess: real)
    requires Drift(s, n, t, excess) && forall i :: 0 <= i < |s.open| ==> s.open[i].paymentId != p
    ensures Drift(OpenLot(s, p, num, a), n, t, excess)
  {
    var lot := NewLot(p, num, a);
    LotAmountsAppend(s.open, [lot]);
    LotAmountsAppend(s.open, s.closed);
    LotAmountsAppend(s.open + [lot], s.closed);
  }

  lemma StepDrift(s: SideState, op: Op, n: nat, t: real, excess: real)
    requires 0.0 <= t && 0.0 <= op.amount && Drift(s, n, t, excess) && Succeeds(s, op, t)
    requires op.Deposit? ==> forall i :: 0 <= i < |s.open| ==> s.open[i].paymentId != op.paymentId
    ensures Drift(Apply(s, op, t), n + 1, t, excess + ExcessOf(s, op, t))
  {
    hide Drift, AddReady, PreauthSide, ConfirmSide, OpenLot;
    match op
    case Deposit(p, num, a) =>
      DriftLater(s, n, t, excess);
      DepositDrift(s, p, num, a, n + 1, t, excess);
    case MakeReady(a) => ReadyDrift(s, a, n, t, excess);
    case Authorize(c, p, a) =>
      if s.ready - a < -t { DriftLater(s, n, t, excess); } else { PreauthDrift(s, c, p, a, n, t, excess); }
    case Pay(p, a) =>
      if s.preauth - a < -t { DriftLater(s, n, t, excess); } else { ConfirmDrift(s, p, a, n, t, excess); }
  }

  lemma FailingExceedsNothing(s: SideState, op: Op, t: real)
    requires !Succeeds(s, op, t)
    ensures ExcessOf(s, op, t) == 0.0
  {
    hide ConfirmSide;
  }

  lemma LaterDrift(s: SideState, op: Op, n: nat, t: real, excess: real)
    requires 0.0 <= t && 0.0 <= op.amount && Drift(s, n, t, excess)
    requires op.Deposit? ==> forall i :: 0 <= i < |s.open| ==> s.open[i].paymentId != op.paymentId
    ensures var s' := if Succeeds(s, op, t) then Apply(s, op, t) else s;
      Drift(s', n + 1, t, excess + ExcessOf(s, op, t))
  {
    hide Drift, Apply, Succeeds, ExcessOf;
    if Succeeds(s, op, t) {
      StepDrift(s, op, n, t, excess);
    } else {
      DriftLater(s, n, t, excess);
      FailingExceedsNothing(s, op, t);
    }
  }

  lemma {:induction false} SafeRunDrift(ops: seq<Op>, t: real)
    requires 0.0 <= t && Reasonable(ops, t)
    ensures Drift(SafeRun(ops, t), |ops|, t, Excess(ops, t))
    decreases |ops|
  {
    hide Drift, Apply, Succeeds, ExcessOf, SafeRun, Reasonable, Excess;
    if ops == [] {
      NothingDrifts(t);
    } else {
      var before, op := ops[..|ops| - 1], ops[|ops| - 1];
      OneMore(before, op, t);
      assert before + [op] == ops;
      SafeRunDrift(before, t);
      LaterDrift(SafeRun(before, t), op, |before|, t, Excess(before, t));
    }
  }

  lemma NothingDrifts(t: real)
    requires 0.0 <= t
    ensures Drift(SafeRun([], t), 0, t, Excess([], t))
  {
    hide Drift;
    NoLotsNoDrift(SafeRun([], t), 0, t);
  }

  lemma OneMore(before: seq<Op>, op: Op, t: real)
    ensures var ops, s := before + [op], SafeRun(before, t);
      && SafeRun(ops, t) == (if Succeeds(s, op, t) then Apply(s, op, t) else s)
      && Excess(ops, t) == Excess(before, t) + ExcessOf(s, op, t)
      && (Reasonable(ops, t) ==>
            && Reasonable(before, t) && 0.0 <= op.amount
            && (op.Deposit? ==> forall i :: 0 <= i < |s.open| ==> s.open[i].paymentId != op.paymentId))
  {
    hide Apply, Succeeds, ExcessOf;
    assert (before + [op])[..|before|] == before;
  }

  lemma NoLotsNoDrift(s: SideState, n: nat, t: real)
    requires 0.0 <= t && n == 0 && s.open == [] && s.closed == []
    requires s.unconfirmed == s.ready == s.preauth == s.spent == 0.0
    ensures Drift(s, n, t, 0.0)
  {
    assert AllLots(s) == [];
    ZeroGap(Gap(s), Times(n, t), t);
  }

  lemma ZeroGap(g: Amounts, zero: real, t: real)
    requires 0.0 <= t && zero == 0.0
    requires g.unconfirmed == zero && g.ready == zero && g.preauth == zero && g.spent == zero
    ensures GapBounds(g, zero, zero, t, zero)
  {
  }

  /** Over a run of n requests that closed c lots, each balance stays within a multiple of the tolerance, linear in n
      and c, of what its lots say, once what was confirmed in excess of the lots is moved from preauthorized to
      spent. */
  lemma BoundedDrift(ops: seq<Op>, t: real)
    requires 0.0 <= t && Reasonable(ops, t)
    ensures var s := SafeRun(ops, t);
      Within(Gap(s), Times(|ops|, t), Times(|s.closed|, t), t, Excess(ops, t))
  {
    hide SafeRun, Reasonable, LotAmounts, Excess;
    SafeRunDrift(ops, t);
    TimesGrows(0, |ops|, t);
  }

  ghost predicate Within(g: Amounts, nt: real, ct: real, t: real, excess: real) {
    && -(t + ct) <= g.unconfirmed <= nt
    && -(nt + t + ct) <= g.ready <= nt + t + ct
    && -2.0 * nt <= g.preauth + excess <= 2.0 * (nt + t + ct)
    && -nt <= g.spent - excess <= nt
  }

  /** With no tolerance the balances are exactly what the lots say, but for the excess; so they agree if and only if no
      payment was confirmed for more than the open lots held for it. */
  lemma NoToleranceNoDrift(ops: seq<Op>, t: real)
    requires t == 0.0 && Reasonable(ops, t)
    ensures var s, excess := SafeRun(ops, t), Excess(ops, t); var lots := LotAmounts(AllLots(s));
      && Balances(s) == lots.(preauth := lots.preauth - excess, spent := lots.spent + excess)
      && (Balances(s) == lots <==> excess == 0.0)
  {
    hide Drift, LotAmounts, Excess;
    SafeRunDrift(ops, t);
    DriftOfNothing(SafeRun(ops, t), |ops|, t, Excess(ops, t));
  }

  lemma DriftOfNothing(s: SideState, n: nat, t: real, excess: real)
    requires t == 0.0 && Drift(s, n, t, excess)
    ensures var lots := LotAmounts(AllLots(s));
      Balances(s) == lots.(preauth := lots.preauth - excess, spent := lots.spent + excess)
  {
    TimesOfNothing(n, t);
    TimesOfNothing(|s.closed|, t);
    NoGap(Gap(s), t, excess);
    SameAmounts(Balances(s), LotAmounts(AllLots(s)), excess);
  }

  lemma SameAmounts(a: Amounts, b: Amounts, excess: real)
    requires a.Minus(b).unconfirmed == a.Minus(b).ready == 0.0
    requires a.Minus(b).preauth == -excess && a.Minus(b).spent == excess
    ensures a == b.(preauth := b.preauth - excess, spent := b.spent + excess)
  {
  }

  lemma NoGap(g: Amounts, zero: real, excess: real)
    requires zero == 0.0 && GapBounds(g, zero, zero, zero, excess)
    ensures g.unconfirmed == zero && g.ready == zero && g.preauth == -excess && g.spent == excess
  {
  }

  /** A call that stops inside a lot adds no drift. */
  lemma StoppingInsideALotIsExact(s: SideState, c: string, p: string, amount: real, t: real)
    ensures ReadyScan(s, amount, t).done && AddReady(s, amount, t).status.Some?
      ==> Gap(AddReady(s, amount, t).side) == Gap(s)
    ensures PreauthScan(s, amount, t).done && PreauthSide(s, c, p, amount, t).status.Some?
      ==> Gap(PreauthSide(s, c, p, amount, t).side) == Gap(s)
    ensures ConfirmScan(s, p, amount, t).done && ConfirmSide(s, p, amount, t).status.Some?
      ==> Gap(ConfirmSide(s, p, amount, t).side) == Gap(s)
  {
    hide ReadyLots, PreauthLots, ConfirmClosing, LotAmounts, SeqNums;
    if AddReady(s, amount, t).status.Some? { ReadyGap(s, amount, t); }
    if PreauthSide(s, c, p, amount, t).status.Some? { PreauthGap(s, c, p, amount, t); }
    if ConfirmSide(s, p, amount, t).status.Some? { ConfirmGap(s, p, amount, t); }
  }

  // A payment confirmed in two parts

  /** A side with one lot that was deposited, made ready and held for one payment. */
  function HeldSide(a: real): SideState {
    var lot := Lot("L", None, 0.0, 0.0, 2.0 * a, 0.0, [Spend("C", "P", 2.0 * a, 0.0)]);
    SideState(0.0, 0.0, 2.0 * a, 0.0, [lot], [])
  }

  /** The same when half of the payment was confirmed: the spend holds nothing any more, the lot still does. */
  function HalfPaidSide(a: real): SideState {
    var lot := Lot("L", None, 0.0, 0.0, a, a, [Spend("C", "P", 0.0, a)]);
    SideState(0.0, 0.0, a, a, [lot], [])
  }

  lemma OneLotScan(lot: Lot, key: Lot -> real, amount: real, t: real)
    ensures Scan([lot], key, amount, t) ==
      if -t < amount - key(lot) then Scanned(amount - key(lot), 1, false) else Scanned(amount, 0, true)
  {
    assert [lot][1..] == [];
  }

  function ReadySide(a: real): SideState {
    SideState(0.0, 2.0 * a, 0.0, 0.0, [Lot("L", None, 0.0, 2.0 * a, 0.0, 0.0, [])], [])
  }

  lemma GetsReady(a: real, t: real)
    requires 0.0 <= t < a
    ensures AddReady(OpenLot(EMPTY_SIDE, "L", None, 2.0 * a), 2.0 * a, t) == Outcome(ReadySide(a), Some(()))
  {
    var s := OpenLot(EMPTY_SIDE, "L", None, 2.0 * a);
    var lot := NewLot("L", None, 2.0 * a);
    assert s.open == [lot];
    var amount := 2.0 * a;
    OneLotScan(lot, UnconfirmedOf, amount, t);
    assert FullyReady(lot) == MoveToReady(lot, amount) == ReadySide(a).open[0];
    assert ReadyLots(s, amount, t) == ReadySide(a).open;
  }

  lemma GetsAuthorized(a: real, t: real)
    requires 0.0 <= t < a
    ensures Preauth(ReadySide(a), "C", "P", 2.0 * a, t) == Outcome(HeldSide(a), Some(Approved("P")))
  {
    var s := ReadySide(a);
    OneLotScan(s.open[0], ReadyOf, 2.0 * a, t);
    assert [] + [Spend("C", "P", 2.0 * a, 0.0)] == [Spend("C", "P", 2.0 * a, 0.0)];
    assert PreauthLots(s, "C", "P", 2.0 * a, t) == HeldSide(a).open;
  }

  lemma GetsHeld(a: real, t: real)
    requires 0.0 <= t < a
    ensures SafeRun([Deposit("L", None, 2.0 * a), MakeReady(2.0 * a), Authorize("C", "P", 2.0 * a)], t) == HeldSide(a)
  {
    hide AddReady, Preauth, OpenLot;
    var ops := [Deposit("L", None, 2.0 * a), MakeReady(2.0 * a), Authorize("C", "P", 2.0 * a)];
    assert ops[..2][..1] == ops[..1] && ops[..1][..0] == [];
    assert SafeRun(ops[..1], t) == OpenLot(EMPTY_SIDE, "L", None, 2.0 * a);
    GetsReady(a, t);
    assert SafeRun(ops[..2], t) == ReadySide(a);
    GetsAuthorized(a, t);
  }

  lemma HalfIsPaid(a: real, t: real)
    requires 0.0 <= t < a
    ensures Confirm(HeldSide(a), "P", a, t).status.Some? && Confirm(HeldSide(a), "P", a, t).side == HalfPaidSide(a)
  {
    var s := HeldSide(a);
    var lot := s.open[0];
    assert lot.spends[1..] == [];
    assert Held(lot.spends, "P") == 2.0 * a;
    OneLotScan(lot, HeldBy("P"), a, t);
    assert SpendDue(lot.spends, "P", a, t) == HalfPaidSide(a).open[0].spends;
    assert SpentLots(s, "P", a, t) == HalfPaidSide(a).open;
    assert HalfPaidSide(a).open[..0] == [];
  }

  lemma RestIsPaid(a: real, t: real)
    requires 0.0 <= t < a
    ensures var c := Confirm(HalfPaidSide(a), "P", a, t);
      c.status.Some? && c.side == HalfPaidSide(a).(preauth := 0.0, spent := 2.0 * a)
  {
    var s := HalfPaidSide(a);
    var lot := s.open[0];
    assert lot.spends[1..] == [];
    assert Held(lot.spends, "P") == 0.0;
    OneLotScan(lot, HeldBy("P"), a, t);
    assert SpendAll(lot.spends, "P") == lot.spends;
    assert SpentLots(s, "P", a, t) == [lot];
    assert [lot][..1] == [lot] && [lot][1..] == [] && UsedUpIds([lot], t) == [];
  }

  /** Confirming a payment of twice some amount in two halves succeeds, but the second half finds nothing held in the
      lots, because the first one dropped the rest: the spent balance is off by that amount, whatever it is. */
  lemma TwoPartsDrift(a: real, t: real)
    requires 0.0 <= t < a
    ensures var ops := [Deposit("L", None, 2.0 * a), MakeReady(2.0 * a), Authorize("C", "P", 2.0 * a), Pay("P", a),
                        Pay("P", a)];
      && Gap(SafeRun(ops[..4], t)).spent == 0.0 && HeldInTotal(SafeRun(ops[..4], t), "P") == 0.0
      && Gap(SafeRun(ops, t)).spent == a
  {
    hide Confirm, Gap, Preauth, AddReady, OpenLot;
    var ops := [Deposit("L", None, 2.0 * a), MakeReady(2.0 * a), Authorize("C", "P", 2.0 * a), Pay("P", a),
                Pay("P", a)];
    GetsHeld(a, t);
    HalfIsPaid(a, t);
    RestIsPaid(a, t);
    assert ops[..4][..3] == [Deposit("L", None, 2.0 * a), MakeReady(2.0 * a), Authorize("C", "P", 2.0 * a)];
    assert SafeRun(ops[..4], t) == HalfPaidSide(a);
    assert ops[..5] == ops && SafeRun(ops, t) == HalfPaidSide(a).(preauth := 0.0, spent := 2.0 * a);
    GapsOf(a);
  }

  lemma GapsOf(a: real)
    ensures var s := HalfPaidSide(a);
      Gap(s).spent == 0.0 && Gap(s.(preauth := 0.0, spent := 2.0 * a)).spent == a && HeldInTotal(s, "P") == 0.0
  {
    var s := HalfPaidSide(a);
    var lot := s.open[0];
    assert s.open + [] == [lot] && [lot][1..] == [] && lot.spends[1..] == [];
    assert LotAmounts([lot]).spent == a;
    SumByOne(lot, HeldBy("P"));
    assert Held(lot.spends, "P") == 0.0;
  }
}
