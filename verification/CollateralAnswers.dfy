/** What the operations of a collateral side answer, and which lots they touch, said of the lots alone. */
module CollateralAnswers {
  import opened Common
  import opened CollateralSpec
  import opened CollateralTheory
  import CollateralDrift

  // Where an amount runs out

  /** The first n lots together leave more than minus the tolerance of the amount, however many of them are counted,
      and the next lot covers the rest. */
  ghost predicate Boundary(lots: seq<Lot>, key: Lot -> real, amount: real, t: real, n: nat) {
    && n <= |lots|
    && (forall i :: 0 < i <= n ==> -t < amount - SumBy(lots[..i], key))
    && (n < |lots| ==> amount - SumBy(lots[..n], key) - key(lots[n]) <= -t)
  }

  lemma {:induction false} ScanBoundary(lots: seq<Lot>, key: Lot -> real, amount: real, t: real)
    ensures var sc := Scan(lots, key, amount, t);
      && Boundary(lots, key, amount, t, sc.pos)
      && sc.amount == amount - SumBy(lots[..sc.pos], key)
      && (sc.done <==> sc.pos < |lots|)
  {
    ScanMeaning(lots, key, amount, t);
    if lots != [] && -t < amount - key(lots[0]) {
      var sc := Scan(lots, key, amount, t);
      ScanBoundary(lots[1..], key, amount - key(lots[0]), t);
      forall i | 0 < i <= sc.pos ensures -t < amount - SumBy(lots[..i], key) {
        assert lots[..i][1..] == lots[1..][..i - 1];
        if i == 1 {
          assert lots[1..][..0] == [];
        } else {
          assert -t < amount - key(lots[0]) - SumBy(lots[1..][..i - 1], key);
        }
      }
    }
  }

  /** What the lots before the boundary leave of the amount. */
  function Due(lots: seq<Lot>, key: Lot -> real, amount: real, n: nat): real
    requires n <= |lots|
  {
    amount - SumBy(lots[..n], key)
  }

  // Making ready

  predicate Readied(lot: Lot, lot': Lot, a: real) {
    lot' == lot.(unconfirmed := lot'.unconfirmed, ready := lot.ready + a) && lot.unconfirmed - lot'.unconfirmed == a
  }

  ghost predicate ReadiedUpTo(open: seq<Lot>, after: seq<Lot>, amount: real, n: nat) {
    && |after| == |open| && n <= |open|
    && (forall i :: 0 <= i < n ==> Readied(open[i], after[i], open[i].unconfirmed))
    && (n < |open| ==> Readied(open[n], after[n], Due(open, UnconfirmedOf, amount, n)))
    && (forall i :: n < i < |open| ==> after[i] == open[i])
  }

  /** Deposits are confirmed in the order of the lots until the amount runs out. It fails without a change when the
      covering lot would go negative, and with the lots moved when the side would. */
  lemma ReadyExactly(s: SideState, amount: real, t: real) returns (after: seq<Lot>, n: nat)
    ensures Boundary(s.open, UnconfirmedOf, amount, t, n) && ReadiedUpTo(s.open, after, amount, n)
    ensures var due := Due(s.open, UnconfirmedOf, amount, n);
      var lotFails := n < |s.open| && (s.open[n].ready + due < -t || s.open[n].unconfirmed - due < -t);
      var sideFails := s.ready + amount < -t || s.unconfirmed - amount < -t;
      AddReady(s, amount, t) ==
        if lotFails then Outcome(s, None)
        else if sideFails then Outcome(s.(open := after), None)
        else Outcome(s.(open := after, ready := s.ready + amount, unconfirmed := s.unconfirmed - amount), Some(()))
  {
    ScanBoundary(s.open, UnconfirmedOf, amount, t);
    hide Boundary;
    after := ReadyLots(s, amount, t);
    n := ReadyScan(s, amount, t).pos;
    forall i | 0 <= i < n ensures Readied(s.open[i], after[i], s.open[i].unconfirmed) {
      assert after[i] == FullyReady(s.open[i]);
    }
    if n < |s.open| {
      assert after[n] == MoveToReady(s.open[n], Due(s.open, UnconfirmedOf, amount, n));
    }
  }

  // Authorizing

  /** What leaves the ready amount is recorded in one spend of the payment. */
  predicate Authorizes(lot: Lot, lot': Lot, clientOrderId: string, paymentId: string, a: real) {
    && lot' == lot.(ready := lot'.ready, preauth := lot.preauth + a,
                    spends := lot.spends + [Spend(clientOrderId, paymentId, a, 0.0)])
    && lot.ready - lot'.ready == a
  }

  ghost predicate AuthorizesUpTo(
      open: seq<Lot>, after: seq<Lot>, clientOrderId: string, paymentId: string, amount: real, n: nat)
  {
    && |after| == |open| && n <= |open|
    && (forall i :: 0 <= i < n ==> Authorizes(open[i], after[i], clientOrderId, paymentId, open[i].ready))
    && (n < |open| ==> Authorizes(open[n], after[n], clientOrderId, paymentId, Due(open, ReadyOf, amount, n)))
    && (forall i :: n < i < |open| ==> after[i] == open[i])
  }

  /** Without enough ready collateral nothing changes. Otherwise every lot that gives up ready collateral records it
      for the payment, and the payment is approved unless the covering lot or the side would go negative. */
  lemma PreauthExactly(s: SideState, clientOrderId: string, paymentId: string, amount: real, t: real)
    returns (after: seq<Lot>, n: nat)
    ensures Boundary(s.open, ReadyOf, amount, t, n)
    ensures AuthorizesUpTo(s.open, after, clientOrderId, paymentId, amount, n)
    ensures var due := Due(s.open, ReadyOf, amount, n);
      var lotFails := n < |s.open| && (s.open[n].ready - due < -t || s.open[n].preauth + due < -t);
      && Preauth(s, clientOrderId, paymentId, amount, t) == (
           if s.ready - amount < -t then Outcome(s, Some(PreAuthNotEnoughFunds))
           else PreauthSide(s, clientOrderId, paymentId, amount, t))
      && PreauthSide(s, clientOrderId, paymentId, amount, t) ==
        if lotFails then Outcome(s, None)
        else if s.ready - amount < -t || s.preauth + amount < -t then Outcome(s.(open := after), None)
        else Outcome(s.(open := after, ready := s.ready - amount, preauth := s.preauth + amount),
                     Some(Approved(paymentId)))
  {
    ScanBoundary(s.open, ReadyOf, amount, t);
    hide Boundary;
    after := PreauthLots(s, clientOrderId, paymentId, amount, t);
    n := PreauthScan(s, amount, t).pos;
  }

  // Confirming

  /** What the payment's spends record as spent. */
  function SpentBy(spends: seq<Spend>, paymentId: string): real {
    if spends == [] then 0.0
    else (if spends[0].paymentId == paymentId then spends[0].spent else 0.0) + SpentBy(spends[1..], paymentId)
  }

  function Gain(lot: Lot, lot': Lot, paymentId: string): real {
    SpentBy(lot'.spends, paymentId) - SpentBy(lot.spends, paymentId)
  }

  /** Spends keep their order and payment, those of other payments also their amounts; the payment's hold nothing. */
  ghost predicate SpentUp(spends: seq<Spend>, spends': seq<Spend>, paymentId: string) {
    && |spends'| == |spends|
    && forall i :: 0 <= i < |spends| ==>
         if spends[i].paymentId != paymentId then spends'[i] == spends[i]
         else spends'[i] == spends[i].(preauth := 0.0, spent := spends'[i].spent)
  }

  lemma {:induction false} SpendAllGains(spends: seq<Spend>, p: string)
    ensures SpentBy(SpendAll(spends, p), p) == SpentBy(spends, p) + Held(spends, p)
    ensures SpentUp(spends, SpendAll(spends, p), p)
  {
    if spends != [] {
      SpendAllGains(spends[1..], p);
      assert SpendAll(spends, p)[1..] == SpendAll(spends[1..], p);
    }
  }

  lemma {:induction false} SpendDueGains(spends: seq<Spend>, p: string, due: real, t: real)
    ensures SpentBy(SpendDue(spends, p, due, t), p) == SpentBy(spends, p) + Recorded(spends, p, due, t)
    ensures SpentUp(spends, SpendDue(spends, p, due, t), p)
  {
    if spends != [] {
      var rest := if spends[0].paymentId == p then due - Take(spends[0], due, t) else due;
      SpendDueGains(spends[1..], p, rest, t);
      assert SpendDue(spends, p, due, t)[1..] == SpendDue(spends[1..], p, rest, t);
    }
  }

  /** A lot from which the payment takes so much. */
  ghost predicate Pays(lot: Lot, lot': Lot, paymentId: string, a: real) {
    && lot' == lot.(preauth := lot'.preauth, spent := lot.spent + a, spends := lot'.spends)
    && lot.preauth - lot'.preauth == a
    && SpentUp(lot.spends, lot'.spends, paymentId)
  }

  ghost predicate PaysUpTo(open: seq<Lot>, after: seq<Lot>, paymentId: string, amount: real, n: nat) {
    && |after| == |open| && n <= |open|
    && (forall i :: 0 <= i < n ==>
          && Pays(open[i], after[i], paymentId, Held(open[i].spends, paymentId))
          && Gain(open[i], after[i], paymentId) == Held(open[i].spends, paymentId))
    && (n < |open| ==> Pays(open[n], after[n], paymentId, Due(open, HeldBy(paymentId), amount, n)))
    && (forall i :: n < i < |open| ==> after[i] == open[i])
  }

  lemma FullySpentPays(lot: Lot, p: string)
    ensures var lot' := FullySpent(p)(lot);
      Pays(lot, lot', p, Held(lot.spends, p)) && Gain(lot, lot', p) == Held(lot.spends, p)
  {
    hide SpentUp;
    SpendAllGains(lot.spends, p);
  }

  lemma PartlySpentPays(lot: Lot, p: string, due: real, t: real)
    ensures var lot' := PartlySpent(p, t)(lot, due);
      Pays(lot, lot', p, due) && Gain(lot, lot', p) == Recorded(lot.spends, p, due, t)
  {
    hide SpentUp;
    SpendDueGains(lot.spends, p, due, t);
  }

  lemma SpentLotsPay(s: SideState, p: string, amount: real, t: real)
    ensures PaysUpTo(s.open, SpentLots(s, p, amount, t), p, amount, ConfirmScan(s, p, amount, t).pos)
  {
    ScanBoundary(s.open, HeldBy(p), amount, t);
    hide Boundary, Pays, Gain, FullySpent, PartlySpent;
    var n := ConfirmScan(s, p, amount, t).pos;
    forall i | 0 <= i < n
      ensures var lot, lot' := s.open[i], SpentLots(s, p, amount, t)[i];
        Pays(lot, lot', p, Held(lot.spends, p)) && Gain(lot, lot', p) == Held(lot.spends, p)
    {
      FullySpentPays(s.open[i], p);
    }
    if n < |s.open| {
      PartlySpentPays(s.open[n], p, Due(s.open, HeldBy(p), amount, n), t);
    }
  }

  /** The deposit numbers stand for lots in increasing order: all lots of a number, among the first n, in whose spends
      the payment gained more than the tolerance. */
  ghost predicate NamesPayers(
      open: seq<Lot>, after: seq<Lot>, nums: seq<nat>, places: seq<nat>, paymentId: string, t: real, n: nat)
    requires |after| == |open| && n <= |open|
  {
    && |places| == |nums|
    && (forall i, j :: 0 <= i < j < |places| ==> places[i] < places[j])
    && (forall i :: 0 <= i < |places| ==>
          places[i] < n && open[places[i]].seqNum == Some(nums[i]) && Payer(open, after, paymentId, t, places[i]))
    && (forall j :: 0 <= j < n && Payer(open, after, paymentId, t, j) ==> j in places)
  }

  predicate Payer(open: seq<Lot>, after: seq<Lot>, paymentId: string, t: real, j: nat)
    requires |after| == |open|
  {
    j < |open| && open[j].seqNum.Some? && t < Gain(open[j], after[j], paymentId)
  }

  lemma NamesOneMore(
      open: seq<Lot>, after: seq<Lot>, nums: seq<nat>, places: seq<nat>, p: string, t: real, n: nat, took: real)
    requires |after| == |open| && n < |open| && NamesPayers(open, after, nums, places, p, t, n)
    requires took == Gain(open[n], after[n], p)
    ensures NamesPayers(open, after, nums + SeqNumOf(open[n], took, t),
                        if Payer(open, after, p, t, n) then places + [n] else places, p, t, n + 1)
  {
    hide Gain;
    if Payer(open, after, p, t, n) {
      var places' := places + [n];
      forall j | 0 <= j < n + 1 && Payer(open, after, p, t, j) ensures j in places' {
        if j == n { assert places'[|places|] == n; } else { assert j in places; }
      }
    } else {
      assert nums + [] == nums;
    }
  }

  lemma {:induction false} SeqNumsAppend(xs: seq<Lot>, ys: seq<Lot>, p: string, t: real)
    ensures SeqNumsOf(xs + ys, p, t) == SeqNumsOf(xs, p, t) + SeqNumsOf(ys, p, t)
  {
    if xs == [] {
      assert xs + ys == ys;
    } else {
      assert (xs + ys)[1..] == xs[1..] + ys;
      SeqNumsAppend(xs[1..], ys, p, t);
    }
  }

  lemma SeqNumsBefore(lots: seq<Lot>, p: string, t: real, n: nat)
    requires 0 < n <= |lots|
    ensures SeqNumsOf(lots[..n], p, t)
         == SeqNumsOf(lots[..n - 1], p, t) + SeqNumOf(lots[n - 1], Held(lots[n - 1].spends, p), t)
  {
    assert lots[..n] == lots[..n - 1] + [lots[n - 1]];
    SeqNumsAppend(lots[..n - 1], [lots[n - 1]], p, t);
    assert [lots[n - 1]][1..] == [];
  }

  /** The lots before the boundary. */
  lemma {:induction false} FirstPayers(
      open: seq<Lot>, after: seq<Lot>, p: string, t: real, n: nat) returns (places: seq<nat>)
    requires |after| == |open| && n <= |open|
    requires forall i :: 0 <= i < n ==> Gain(open[i], after[i], p) == Held(open[i].spends, p)
    ensures NamesPayers(open, after, SeqNumsOf(open[..n], p, t), places, p, t, n)
  {
    if n == 0 {
      places := [];
    } else {
      hide Gain, Held, SeqNumOf, SeqNumsOf, NamesPayers, Payer;
      places := FirstPayers(open, after, p, t, n - 1);
      SeqNumsBefore(open, p, t, n);
      NamesOneMore(open, after, SeqNumsOf(open[..n - 1], p, t), places, p, t, n - 1, Held(open[n - 1].spends, p));
      places := if Payer(open, after, p, t, n - 1) then places + [n - 1] else places;
    }
  }

  lemma {:induction false} NoMorePayers(
      open: seq<Lot>, after: seq<Lot>, nums: seq<nat>, places: seq<nat>, p: string, t: real, n: nat, m: nat)
    requires |after| == |open| && n <= m <= |open| && 0.0 <= t && NamesPayers(open, after, nums, places, p, t, n)
    requires forall i :: n <= i < |open| ==> after[i] == open[i]
    ensures NamesPayers(open, after, nums, places, p, t, m)
  {
  }

  // Closing

  /** The lots that are used up, or those that are not, in order. */
  function Leaving(lots: seq<Lot>, t: real, used: bool): seq<Lot> {
    if lots == [] then []
    else
      var lot := lots[0];
      (if (lot.unconfirmed < t && lot.ready < t && lot.preauth < t) == used then [lot] else [])
      + Leaving(lots[1..], t, used)
  }

  lemma {:induction false} FindAfter(kept: seq<Lot>, lots: seq<Lot>, id: string)
    requires forall l :: l in kept ==> l.paymentId != id
    requires lots != [] && lots[0].paymentId == id
    ensures Find(kept + lots, id) == |kept|
  {
    if kept == [] {
      assert kept + lots == lots;
    } else {
      assert (kept + lots)[1..] == kept[1..] + lots;
      FindAfter(kept[1..], lots, id);
    }
  }

  lemma DistinctAfter(kept: seq<Lot>, lots: seq<Lot>)
    requires lots != [] && CollateralDrift.DistinctIds(kept + lots)
    ensures forall l :: l in kept ==> l.paymentId != lots[0].paymentId
    ensures CollateralDrift.DistinctIds(kept + lots[1..])
  {
    var all, rest := kept + lots, kept + lots[1..];
    forall l | l in kept ensures l.paymentId != lots[0].paymentId {
      var i :| 0 <= i < |kept| && kept[i] == l;
      assert all[i] == l && all[|kept|] == lots[0];
    }
    forall i, j | 0 <= i < j < |rest| ensures rest[i].paymentId != rest[j].paymentId {
      assert rest[i] == all[if i < |kept| then i else i + 1];
      assert rest[j] == all[if j < |kept| then j else j + 1];
    }
  }

  lemma CloseOne(kept: seq<Lot>, lots: seq<Lot>, closed: seq<Lot>, ids: seq<string>)
    requires lots != [] && forall l :: l in kept ==> l.paymentId != lots[0].paymentId
    ensures CloseLots(kept + lots, closed, [lots[0].paymentId] + ids)
         == CloseLots(kept + lots[1..], closed + [lots[0]], ids)
  {
    FindAfter(kept, lots, lots[0].paymentId);
    hide Find;
    assert (kept + lots)[..|kept|] + (kept + lots)[|kept| + 1..] == kept + lots[1..];
    assert ([lots[0].paymentId] + ids)[1..] == ids;
  }

  /** What closing the used up ones among `lots` makes of the open lots around them. */
  function Closes(kept: seq<Lot>, lots: seq<Lot>, beyond: seq<Lot>, closed: seq<Lot>, t: real): Closing {
    Closing(kept + Leaving(lots, t, false) + beyond, closed + Leaving(lots, t, true), true)
  }

  lemma ClosesFirst(kept: seq<Lot>, lots: seq<Lot>, beyond: seq<Lot>, closed: seq<Lot>, t: real)
    requires lots != []
    ensures Closes(kept, lots, beyond, closed, t) ==
      if UsedUp(lots[0], t) then Closes(kept, lots[1..], beyond, closed + [lots[0]], t)
      else Closes(kept + [lots[0]], lots[1..], beyond, closed, t)
  {
    LeavingFirst(lots, t);
    hide Leaving, UsedUp;
    if UsedUp(lots[0], t) {
      InOneOrTwo(closed, lots[0], Leaving(lots[1..], t, true));
    } else {
      InOneOrTwo(kept, lots[0], Leaving(lots[1..], t, false));
    }
  }

  lemma InOneOrTwo(before: seq<Lot>, lot: Lot, later: seq<Lot>)
    ensures before + ([lot] + later) == before + [lot] + later
  {
  }

  lemma Regroup(kept: seq<Lot>, lots: seq<Lot>, beyond: seq<Lot>)
    requires lots != []
    ensures (lots + beyond)[0] == lots[0] && (lots + beyond)[1..] == lots[1..] + beyond
    ensures kept + [lots[0]] + (lots[1..] + beyond) == kept + (lots + beyond)
  {
  }

  /** Lots are closed first to last, and each one found is the one that was used up. */
  lemma {:induction false} ClosesInOrder(
      kept: seq<Lot>, lots: seq<Lot>, beyond: seq<Lot>, closed: seq<Lot>, t: real)
    requires CollateralDrift.DistinctIds(kept + (lots + beyond))
    ensures CloseLots(kept + (lots + beyond), closed, UsedUpIds(lots, t)) == Closes(kept, lots, beyond, closed, t)
    decreases |lots|
  {
    if lots == [] {
      assert lots + beyond == beyond && kept + [] == kept && closed + [] == closed;
    } else {
      hide CollateralDrift.DistinctIds, CloseLots, UsedUp, UsedUpIds, Closes;
      UsedUpIdsFirst(lots, t);
      ClosesFirst(kept, lots, beyond, closed, t);
      Regroup(kept, lots, beyond);
      if UsedUp(lots[0], t) {
        DistinctAfter(kept, lots + beyond);
        CloseOne(kept, lots + beyond, closed, UsedUpIds(lots[1..], t));
        ClosesInOrder(kept, lots[1..], beyond, closed + [lots[0]], t);
      } else {
        ClosesInOrder(kept + [lots[0]], lots[1..], beyond, closed, t);
      }
    }
  }

  lemma LeavingFirst(lots: seq<Lot>, t: real)
    requires lots != []
    ensures UsedUp(lots[0], t) ==>
      && Leaving(lots, t, true) == [lots[0]] + Leaving(lots[1..], t, true)
      && Leaving(lots, t, false) == Leaving(lots[1..], t, false)
    ensures !UsedUp(lots[0], t) ==>
      && Leaving(lots, t, false) == [lots[0]] + Leaving(lots[1..], t, false)
      && Leaving(lots, t, true) == Leaving(lots[1..], t, true)
  {
  }

  lemma UsedUpIdsFirst(lots: seq<Lot>, t: real)
    requires lots != []
    ensures UsedUpIds(lots, t)
         == if UsedUp(lots[0], t) then [lots[0].paymentId] + UsedUpIds(lots[1..], t) else UsedUpIds(lots[1..], t)
  {
  }

  lemma ConfirmNamesPayers(s: SideState, paymentId: string, amount: real, t: real)
    returns (after: seq<Lot>, n: nat, places: seq<nat>)
    requires 0.0 <= t && ConfirmSide(s, paymentId, amount, t).status.Some?
    ensures Boundary(s.open, HeldBy(paymentId), amount, t, n) && PaysUpTo(s.open, after, paymentId, amount, n)
    ensures var status := ConfirmSide(s, paymentId, amount, t).status.value;
      status.Authorized? && NamesPayers(s.open, after, status.seqNums, places, paymentId, t, |s.open|)
    ensures after == SpentLots(s, paymentId, amount, t) && n == ConfirmScan(s, paymentId, amount, t).pos
  {
    after, n := SpentLots(s, paymentId, amount, t), ConfirmScan(s, paymentId, amount, t).pos;
    SpentLotsPay(s, paymentId, amount, t);
    ScanBoundary(s.open, HeldBy(paymentId), amount, t);
    hide Boundary, Pays, Gain, NamesPayers, SeqNumsOf, SeqNumOf, Payer, SpentLots;
    places := FirstPayers(s.open, after, paymentId, t, n);
    var nums := SeqNumsOf(s.open[..n], paymentId, t);
    if n < |s.open| {
      var took := Gain(s.open[n], after[n], paymentId);
      BoundaryGain(s, paymentId, amount, t);
      NamesOneMore(s.open, after, nums, places, paymentId, t, n, took);
      nums := nums + SeqNumOf(s.open[n], took, t);
      places := if Payer(s.open, after, paymentId, t, n) then places + [n] else places;
      NoMorePayers(s.open, after, nums, places, paymentId, t, n + 1, |s.open|);
    } else {
      assert nums + [] == nums;
    }
  }

  /** Confirming pays out of the lots in order until the amount runs out, and names in its answer, in this order, the
      deposits it took more than the tolerance from. Paid lots are only moved from the open to the closed ones. */
  lemma ConfirmNames(s: SideState, paymentId: string, amount: real, t: real)
    returns (after: seq<Lot>, n: nat, places: seq<nat>)
    requires 0.0 <= t && ConfirmSide(s, paymentId, amount, t).status.Some?
    ensures Boundary(s.open, HeldBy(paymentId), amount, t, n) && PaysUpTo(s.open, after, paymentId, amount, n)
    ensures var status := ConfirmSide(s, paymentId, amount, t).status.value;
      status.Authorized? && NamesPayers(s.open, after, status.seqNums, places, paymentId, t, |s.open|)
    ensures var s' := ConfirmSide(s, paymentId, amount, t).side;
      multiset(s'.open + s'.closed) == multiset(after + s.closed)
  {
    after, n, places := ConfirmNamesPayers(s, paymentId, amount, t);
    hide Boundary, PaysUpTo, NamesPayers, SpentLots, ConfirmScan, SeqNums, CloseLots, UsedUpIds;
    ClosingKeepsLots(after, s.closed, UsedUpIds(after[..n], t));
  }

  /** The last number that is named is that of the last lot the payment took from, and none is named when there is no
      such lot. */
  lemma LastNumberIsLastPayer(
      open: seq<Lot>, after: seq<Lot>, nums: seq<nat>, places: seq<nat>, paymentId: string, t: real)
    requires |after| == |open| && NamesPayers(open, after, nums, places, paymentId, t, |open|)
    ensures nums == [] <==> forall j: nat :: j < |open| ==> !Payer(open, after, paymentId, t, j)
    ensures nums != [] ==>
      exists j: nat :: j < |open| && Payer(open, after, paymentId, t, j) && open[j].seqNum == Some(nums[|nums| - 1])
        && forall k: nat :: j < k < |open| ==> !Payer(open, after, paymentId, t, k)
  {
    hide Gain;
    if nums != [] {
      var j := places[|places| - 1];
      assert Payer(open, after, paymentId, t, j) && open[j].seqNum == Some(nums[|nums| - 1]);
      forall k: nat | k < |open| && Payer(open, after, paymentId, t, k) ensures k <= j {
        var i :| 0 <= i < |places| && places[i] == k;
      }
    }
  }

  lemma BoundaryGain(s: SideState, p: string, amount: real, t: real)
    requires ConfirmScan(s, p, amount, t).done
    ensures var sc := ConfirmScan(s, p, amount, t);
      Gain(s.open[sc.pos], SpentLots(s, p, amount, t)[sc.pos], p) == Recorded(s.open[sc.pos].spends, p, sc.amount, t)
  {
    var sc := ConfirmScan(s, p, amount, t);
    PartlySpentPays(s.open[sc.pos], p, sc.amount, t);
    hide Gain;
  }

  /** The lot that covers the rest records just that, if no spend of it is overdrawn. */
  lemma BoundaryLotPays(s: SideState, p: string, amount: real, t: real)
    requires 0.0 <= t && 0.0 <= amount && ConfirmScan(s, p, amount, t).done
    requires SpendsHold(s.open[ConfirmScan(s, p, amount, t).pos].spends, t)
    ensures var sc := ConfirmScan(s, p, amount, t);
      Gain(s.open[sc.pos], SpentLots(s, p, amount, t)[sc.pos], p) == Due(s.open, HeldBy(p), amount, sc.pos)
  {
    BoundaryGain(s, p, amount, t);
    ScanBoundary(s.open, HeldBy(p), amount, t);
    var sc := ConfirmScan(s, p, amount, t);
    hide SpentLots, Scan, Gain, Recorded;
    if sc.pos == 0 { assert s.open[..0] == []; }
    DueIsRecorded(s.open[sc.pos].spends, p, sc.amount, t);
  }

  lemma ConfirmCloses(s: SideState, paymentId: string, amount: real, t: real)
    requires CollateralDrift.DistinctIds(s.open)
    ensures var after, n := SpentLots(s, paymentId, amount, t), ConfirmScan(s, paymentId, amount, t).pos;
      && n <= |after|
      && ConfirmClosing(s, paymentId, amount, t)
           == Closing(Leaving(after[..n], t, false) + after[n..], s.closed + Leaving(after[..n], t, true), true)
  {
    var after, n := SpentLots(s, paymentId, amount, t), ConfirmScan(s, paymentId, amount, t).pos;
    CollateralDrift.SpentIds(s, paymentId, amount, t);
    hide SpentLots, ConfirmScan, CollateralDrift.DistinctIds;
    assert [] + (after[..n] + after[n..]) == after;
    ClosesInOrder([], after[..n], after[n..], s.closed, t);
    assert [] + Leaving(after[..n], t, false) == Leaving(after[..n], t, false);
  }

  /** What a confirmation makes of the side: it pays lot by lot, names the deposits, and moves exactly the used up lots
      among those it emptied of the payment to the closed ones. It fails only when a balance would go negative. */
  lemma ConfirmExactly(s: SideState, paymentId: string, amount: real, t: real)
    returns (after: seq<Lot>, n: nat, places: seq<nat>)
    requires 0.0 <= t && CollateralDrift.DistinctIds(s.open)
    ensures Boundary(s.open, HeldBy(paymentId), amount, t, n) && PaysUpTo(s.open, after, paymentId, amount, n)
    ensures n < |s.open| && 0.0 <= amount && SpendsHold(s.open[n].spends, t) ==>
      Gain(s.open[n], after[n], paymentId) == Due(s.open, HeldBy(paymentId), amount, n)
    ensures Confirm(s, paymentId, amount, t) ==
      if s.preauth - amount < -t then Outcome(s, Some(ConfirmNotEnoughFunds)) else ConfirmSide(s, paymentId, amount, t)
    ensures var r := ConfirmSide(s, paymentId, amount, t);
      var left := s.(open := Leaving(after[..n], t, false) + after[n..],
                     closed := s.closed + Leaving(after[..n], t, true));
      if s.spent + amount < -t || s.preauth - amount < -t then r == Outcome(left, None)
      else
        && r.side == left.(preauth := s.preauth - amount, spent := s.spent + amount)
        && r.status.Some? && r.status.value.Authorized?
        && NamesPayers(s.open, after, r.status.value.seqNums, places, paymentId, t, |s.open|)
  {
    after, n, places := SpentLots(s, paymentId, amount, t), ConfirmScan(s, paymentId, amount, t).pos, [];
    SpentLotsPay(s, paymentId, amount, t);
    ScanBoundary(s.open, HeldBy(paymentId), amount, t);
    ConfirmCloses(s, paymentId, amount, t);
    if n < |s.open| && 0.0 <= amount && SpendsHold(s.open[n].spends, t) {
      BoundaryLotPays(s, paymentId, amount, t);
    }
    hide Boundary, PaysUpTo, NamesPayers, SpentLots, ConfirmScan, SeqNums, ConfirmClosing, Leaving, SpendsHold, Gain,
      Due;
    if ConfirmSide(s, paymentId, amount, t).status.Some? {
      after, n, places := ConfirmNamesPayers(s, paymentId, amount, t);
    }
  }
}
