/** The mutable collateral position: each method is proved to do what its operation says. */
module CollateralPosition {
  import opened Common
  import Spec = CollateralSpec
  import opened CollateralSpec

  class CollateralSide {
    var unconfirmedBalance: real
    var readyBalance: real
    var preauthBalance: real
    var spentBalance: real
    var openLots: seq<Lot>
    var closedLots: seq<Lot>

    function State(): SideState
      reads this
    {
      SideState(unconfirmedBalance, readyBalance, preauthBalance, spentBalance, openLots, closedLots)
    }

    constructor (s: SideState)
      ensures State() == s
    {
      unconfirmedBalance, readyBalance, preauthBalance, spentBalance := s.unconfirmed, s.ready, s.preauth, s.spent;
      openLots, closedLots := s.open, s.closed;
    }

    method OpenLot(paymentId: string, seqNum: Option<nat>, amount: real)
      modifies this
      ensures State() == Spec.OpenLot(old(State()), paymentId, seqNum, amount)
    {
      if seqNum.Some? && (HasSeqNum(openLots, seqNum) || HasSeqNum(closedLots, seqNum)) {
        return;
      }
      openLots := openLots + [NewLot(paymentId, seqNum, amount)];
      unconfirmedBalance := unconfirmedBalance + amount;
    }

    /** The lots before `pos` are needed in full; `done` says that lot `pos` covers what is `left`. */
    method FindBoundary(key: Lot -> real, amount: real, t: real) returns (left: real, pos: nat, done: bool)
      ensures Scanned(left, pos, done) == Scan(openLots, key, amount, t)
    {
      left, pos, done := amount, 0, false;
      while pos < |openLots| && !done
        invariant pos <= |openLots|
        invariant done ==> Scan(openLots, key, amount, t) == Scanned(left, pos, true)
        invariant !done ==>
          var rest := Scan(openLots[pos..], key, left, t);
          Scan(openLots, key, amount, t) == rest.(pos := rest.pos + pos)
        decreases |openLots| - pos, !done
      {
        var lot := openLots[pos];
        assert openLots[pos..][1..] == openLots[pos + 1..];
        var remaining := left - key(lot);
        if -t < remaining {
          left, pos := remaining, pos + 1;
        } else {
          done := true;
        }
      }
    }

    /** Makes the first `pos` lots fully ready. */
    method ReadyBefore(pos: nat)
      requires pos <= |openLots|
      modifies this`openLots
      ensures |openLots| == |old(openLots)|
      ensures forall j :: 0 <= j < pos ==> openLots[j] == FullyReady(old(openLots)[j])
      ensures forall j :: pos <= j < |openLots| ==> openLots[j] == old(openLots)[j]
    {
      var i := 0;
      while i < pos
        invariant i <= pos && |openLots| == |old(openLots)|
        invariant forall j :: 0 <= j < i ==> openLots[j] == FullyReady(old(openLots)[j])
        invariant forall j :: i <= j < |openLots| ==> openLots[j] == old(openLots)[j]
      {
        var lot := openLots[i];
        openLots := openLots[i := lot.(unconfirmed := 0.0, ready := lot.ready + lot.unconfirmed)];
        i := i + 1;
      }
    }

    method AddReady(amountDeliverable: real, t: real) returns (status: Option<()>)
      modifies this
      ensures Outcome(State(), status) == Spec.AddReady(old(State()), amountDeliverable, t)
    {
      ghost var s := State();
      var amount, pos, done := FindBoundary(UnconfirmedOf, amountDeliverable, t);
      if done {
        var lot := openLots[pos];
        if lot.ready + amount < -t || lot.unconfirmed - amount < -t {
          return None;
        }
        openLots := openLots[pos := MoveToReady(lot, amount)];
      }
      ReadyBefore(pos);
      assert openLots == ReadyLots(s, amountDeliverable, t);
      var ready := readyBalance + amountDeliverable;
      var unconfirmed := unconfirmedBalance - amountDeliverable;
      if ready < -t || unconfirmed < -t {
        return None;
      }
      readyBalance, unconfirmedBalance := ready, unconfirmed;
      status := Some(());
    }

    /** Holds everything ready in the first `pos` lots for the payment. */
    method PreauthBefore(clientOrderId: string, paymentId: string, pos: nat)
      requires pos <= |openLots|
      modifies this`openLots
      ensures |openLots| == |old(openLots)|
      ensures forall j :: 0 <= j < pos ==> openLots[j] == FullyPreauth(clientOrderId, paymentId)(old(openLots)[j])
      ensures forall j :: pos <= j < |openLots| ==> openLots[j] == old(openLots)[j]
    {
      var i := 0;
      while i < pos
        invariant i <= pos && |openLots| == |old(openLots)|
        invariant forall j :: 0 <= j < i ==> openLots[j] == FullyPreauth(clientOrderId, paymentId)(old(openLots)[j])
        invariant forall j :: i <= j < |openLots| ==> openLots[j] == old(openLots)[j]
      {
        var lot := openLots[i];
        var spend := Spend(clientOrderId, paymentId, lot.ready, 0.0);
        openLots := openLots[i := lot.(ready := 0.0,
                                       preauth := lot.preauth + lot.ready,
                                       spends := lot.spends + [spend])];
        i := i + 1;
      }
    }

    method PreauthPayment(clientOrderId: string, paymentId: string, amountPayable: real, t: real)
      returns (status: Option<PreAuthStatus>)
      modifies this
      ensures Outcome(State(), status) == PreauthSide(old(State()), clientOrderId, paymentId, amountPayable, t)
    {
      ghost var s := State();
      var amount, pos, done := FindBoundary(ReadyOf, amountPayable, t);
      if done {
        var lot := openLots[pos];
        if lot.ready - amount < -t || lot.preauth + amount < -t {
          return None;
        }
        openLots := openLots[pos := MoveToPreauth(lot, clientOrderId, paymentId, amount)];
      }
      PreauthBefore(clientOrderId, paymentId, pos);
      assert openLots == PreauthLots(s, clientOrderId, paymentId, amountPayable, t);
      var ready := readyBalance - amountPayable;
      var preauth := preauthBalance + amountPayable;
      if ready < -t || preauth < -t {
        return None;
      }
      readyBalance, preauthBalance := ready, preauth;
      status := Some(Approved(paymentId));
    }

    /** Uses up every spend of the payment and says what they held. */
    method UseUpSpends(spends: seq<Spend>, paymentId: string) returns (spends': seq<Spend>, spentAmount: real)
      ensures spends' == SpendAll(spends, paymentId) && spentAmount == Held(spends, paymentId)
    {
      hide SpendAll, Held;
      spends', spentAmount := [], 0.0;
      assert spends[0..] == spends;
      var i := 0;
      while i < |spends|
        invariant i <= |spends|
        invariant SpendAll(spends, paymentId) == spends' + SpendAll(spends[i..], paymentId)
        invariant Held(spends, paymentId) == spentAmount + Held(spends[i..], paymentId)
      {
        var spend := spends[i];
        UseUpStep(spends, i, paymentId);
        if spend.paymentId == paymentId {
          var amount := spend.preauth;
          spends' := spends' + [spend.(preauth := 0.0, spent := spend.spent + amount)];
          spentAmount := spentAmount + amount;
        } else {
          spends' := spends' + [spend];
        }
        i := i + 1;
      }
      NothingUsedUp(spends[i..], paymentId);
    }

    /** Covers the amount due from the payment's spends in order. */
    method UseSpends(spends: seq<Spend>, paymentId: string, due: real, t: real)
      returns (spends': seq<Spend>, spentAmount: real)
      ensures spends' == SpendDue(spends, paymentId, due, t) && spentAmount == Recorded(spends, paymentId, due, t)
    {
      hide SpendDue, Recorded;
      spends', spentAmount := [], 0.0;
      assert spends[0..] == spends;
      ghost var left := due;
      var i := 0;
      while i < |spends|
        invariant i <= |spends| && left == due - spentAmount
        invariant SpendDue(spends, paymentId, due, t) == spends' + SpendDue(spends[i..], paymentId, left, t)
        invariant Recorded(spends, paymentId, due, t) == spentAmount + Recorded(spends[i..], paymentId, left, t)
      {
        var spend := spends[i];
        UseStep(spends, i, paymentId, left, t);
        if spend.paymentId == paymentId {
          var amount := due - spentAmount;
          var amountRemaining := amount - spend.preauth;
          var taken := if t < amountRemaining then spend.preauth else amount;
          assert taken == Take(spend, left, t);
          spends' := spends' + [spend.(preauth := 0.0, spent := spend.spent + taken)];
          spentAmount := spentAmount + taken;
          left := left - taken;
        } else {
          spends' := spends' + [spend];
        }
        i := i + 1;
      }
      NothingUsed(spends[i..], paymentId, left, t);
    }

    /** Moves the lots with these IDs to the closed list, one at a time. */
    method CloseByIds(ids: seq<string>) returns (ok: bool)
      modifies this`openLots, this`closedLots
      ensures Closing(openLots, closedLots, ok) == CloseLots(old(openLots), old(closedLots), ids)
    {
      var k := 0;
      while k < |ids|
        invariant k <= |ids|
        invariant CloseLots(openLots, closedLots, ids[k..]) == CloseLots(old(openLots), old(closedLots), ids)
      {
        assert ids[k..][0] == ids[k] && ids[k..][1..] == ids[k + 1..];
        var i := Find(openLots, ids[k]);
        if i == |openLots| {
          return false;
        }
        openLots, closedLots := openLots[..i] + openLots[i + 1..], closedLots + [openLots[i]];
        k := k + 1;
      }
      ok := true;
    }

    /** Uses up the payment's spends in the first `pos` lots and notes which lots that empties. */
    method SpendBefore(paymentId: string, pos: nat, t: real) returns (closing: seq<string>, seqNums: seq<nat>)
      requires pos <= |openLots|
      modifies this`openLots
      ensures |openLots| == |old(openLots)|
      ensures forall j :: 0 <= j < pos ==> openLots[j] == FullySpent(paymentId)(old(openLots)[j])
      ensures forall j :: pos <= j < |openLots| ==> openLots[j] == old(openLots)[j]
      ensures closing == UsedUpIds(openLots[..pos], t)
      ensures seqNums == SeqNumsOf(old(openLots)[..pos], paymentId, t)
    {
      hide SpendAll, Held, UsedUp, UsedUpIds, SeqNumsOf;
      ghost var lots := openLots;
      closing, seqNums := [], [];
      NothingSeen(openLots[..0], paymentId, t);
      var i := 0;
      while i < pos
        invariant i <= pos && |openLots| == |lots|
        invariant forall j :: 0 <= j < i ==> openLots[j] == FullySpent(paymentId)(lots[j])
        invariant forall j :: i <= j < |openLots| ==> openLots[j] == lots[j]
        invariant closing == UsedUpIds(openLots[..i], t)
        invariant seqNums == SeqNumsOf(lots[..i], paymentId, t)
      {
        var lot := openLots[i];
        var spends, spentAmount := UseUpSpends(lot.spends, paymentId);
        ghost var before := openLots[..i];
        openLots := openLots[i := MoveToSpent(lot, spentAmount, spends)];
        if t < spentAmount && lot.seqNum.Some? {
          seqNums := seqNums + [lot.seqNum.value];
        }
        if UsedUp(openLots[i], t) {
          closing := closing + [lot.paymentId];
        }
        UsedUpIdsAppend(before, openLots[i], t);
        SeqNumsAppend(lots[..i], lot, paymentId, t);
        assert openLots[..i + 1] == before + [openLots[i]] && lots[..i + 1] == lots[..i] + [lot];
        i := i + 1;
      }
    }

    /** Spends what is left from the lot at the boundary. */
    method SpendAt(paymentId: string, pos: nat, amount: real, t: real) returns (seqNums: seq<nat>)
      requires pos < |openLots|
      modifies this`openLots
      ensures openLots == old(openLots)[pos := PartlySpent(paymentId, t)(old(openLots[pos]), amount)]
      ensures seqNums == SeqNumOf(old(openLots[pos]), Recorded(old(openLots[pos]).spends, paymentId, amount, t), t)
    {
      var lot := openLots[pos];
      var spends, spentAmount := UseSpends(lot.spends, paymentId, amount, t);
      openLots := openLots[pos := MoveToSpent(lot, amount, spends)];
      seqNums := if t < spentAmount && lot.seqNum.Some? then [lot.seqNum.value] else [];
    }

    /** All the payment's spending in the lots. */
    method SpendLots(paymentId: string, amountPaid: real, t: real) returns (closing: seq<string>, seqNums: seq<nat>)
      modifies this`openLots
      ensures openLots == SpentLots(old(State()), paymentId, amountPaid, t)
      ensures closing == UsedUpIds(openLots[..ConfirmScan(old(State()), paymentId, amountPaid, t).pos], t)
      ensures seqNums == SeqNums(old(State()), paymentId, amountPaid, t)
    {
      var amount, pos, done := FindBoundary(HeldBy(paymentId), amountPaid, t);
      closing, seqNums := SpendBefore(paymentId, pos, t);
      ghost var full := openLots[..pos];
      if done {
        var more := SpendAt(paymentId, pos, amount, t);
        seqNums := seqNums + more;
      }
      assert openLots[..pos] == full;
    }

    method ConfirmPayment(paymentId: string, amountPaid: real, t: real) returns (status: Option<ConfirmStatus>)
      modifies this
      ensures Outcome(State(), status) == ConfirmSide(old(State()), paymentId, amountPaid, t)
    {
      var closing, seqNums := SpendLots(paymentId, amountPaid, t);
      var ok := CloseByIds(closing);
      var preauth := preauthBalance - amountPaid;
      var spent := spentBalance + amountPaid;
      if !ok || spent < -t || preauth < -t {
        return None;
      }
      preauthBalance, spentBalance := preauth, spent;
      status := Some(Authorized(seqNums));
    }
  }

  // One turn of the loops over a lot's spends

  lemma UseUpStep(spends: seq<Spend>, i: nat, paymentId: string)
    requires i < |spends|
    ensures var s := spends[i];
      var mine := s.paymentId == paymentId;
      && SpendAll(spends[i..], paymentId) ==
           [if mine then s.(preauth := 0.0, spent := s.spent + s.preauth) else s] + SpendAll(spends[i + 1..], paymentId)
      && Held(spends[i..], paymentId) == (if mine then s.preauth else 0.0) + Held(spends[i + 1..], paymentId)
  {
    assert spends[i..][0] == spends[i] && spends[i..][1..] == spends[i + 1..];
  }

  lemma NothingUsedUp(spends: seq<Spend>, paymentId: string)
    requires spends == []
    ensures SpendAll(spends, paymentId) == [] && Held(spends, paymentId) == 0.0
  {
  }

  lemma UseStep(spends: seq<Spend>, i: nat, paymentId: string, due: real, t: real)
    requires i < |spends|
    ensures var s := spends[i];
      var rest := spends[i + 1..];
      if s.paymentId == paymentId then
        var a := Take(s, due, t);
        && SpendDue(spends[i..], paymentId, due, t) ==
             [s.(preauth := 0.0, spent := s.spent + a)] + SpendDue(rest, paymentId, due - a, t)
        && Recorded(spends[i..], paymentId, due, t) == a + Recorded(rest, paymentId, due - a, t)
      else
        && SpendDue(spends[i..], paymentId, due, t) == [s] + SpendDue(rest, paymentId, due, t)
        && Recorded(spends[i..], paymentId, due, t) == Recorded(rest, paymentId, due, t)
  {
    assert spends[i..][0] == spends[i] && spends[i..][1..] == spends[i + 1..];
  }

  lemma NothingUsed(spends: seq<Spend>, paymentId: string, due: real, t: real)
    requires spends == []
    ensures SpendDue(spends, paymentId, due, t) == [] && Recorded(spends, paymentId, due, t) == 0.0
  {
  }

  lemma NothingSeen(lots: seq<Lot>, paymentId: string, t: real)
    requires lots == []
    ensures UsedUpIds(lots, t) == [] && SeqNumsOf(lots, paymentId, t) == []
  {
  }

  lemma {:induction false} SeqNumsAppend(lots: seq<Lot>, lot: Lot, paymentId: string, t: real)
    ensures SeqNumsOf(lots + [lot], paymentId, t)
         == SeqNumsOf(lots, paymentId, t) + SeqNumOf(lot, Held(lot.spends, paymentId), t)
  {
    if lots != [] {
      assert (lots + [lot])[1..] == lots[1..] + [lot];
      SeqNumsAppend(lots[1..], lot, paymentId, t);
    }
  }

  lemma {:induction false} UsedUpIdsAppend(lots: seq<Lot>, lot: Lot, t: real)
    ensures UsedUpIds(lots + [lot], t) == UsedUpIds(lots, t) + if UsedUp(lot, t) then [lot.paymentId] else []
  {
    if lots != [] {
      assert (lots + [lot])[1..] == lots[1..] + [lot];
      UsedUpIdsAppend(lots[1..], lot, t);
    }
  }

  datatype PositionState = PositionState(cr: SideState, dr: SideState) {
    function On(side: Side): SideState {
      match side
      case Buy => cr
      case Sell => dr
    }

    function With(side: Side, s: SideState): PositionState {
      match side
      case Buy => this.(cr := s)
      case Sell => this.(dr := s)
    }
  }

  const EMPTY_POSITION := PositionState(EMPTY_SIDE, EMPTY_SIDE)

  class CollateralPosition {
    const sideCr: CollateralSide
    const sideDr: CollateralSide

    ghost predicate Valid() {
      sideCr != sideDr
    }

    function State(): PositionState
      reads sideCr, sideDr
    {
      PositionState(sideCr.State(), sideDr.State())
    }

    constructor (s: PositionState)
      ensures Valid() && fresh(sideCr) && fresh(sideDr) && State() == s
    {
      sideCr := new CollateralSide(s.cr);
      sideDr := new CollateralSide(s.dr);
    }

    function GetSide(side: Side): CollateralSide {
      match side
      case Buy => sideCr
      case Sell => sideDr
    }

    method Deposit(paymentId: string, seqNum: Option<nat>, amount: real)
      requires Valid()
      modifies sideCr
      ensures State() == old(State()).With(Buy, Spec.OpenLot(old(State()).cr, paymentId, seqNum, amount))
    {
      sideCr.OpenLot(paymentId, seqNum, amount);
    }

    method Withdraw(paymentId: string, amount: real)
      requires Valid()
      modifies sideDr
      ensures State() == old(State()).With(Sell, Spec.OpenLot(old(State()).dr, paymentId, None, amount))
    {
      sideDr.OpenLot(paymentId, None, amount);
    }

    method AddReady(side: Side, amount: real, t: real) returns (status: Option<()>)
      requires Valid()
      modifies GetSide(side)
      ensures var o := Spec.AddReady(old(State()).On(side), amount, t);
        State() == old(State()).With(side, o.side) && status == o.status
    {
      status := GetSide(side).AddReady(amount, t);
    }

    method PreauthPayment(clientOrderId: string, side: Side, amountPayable: real, nextPaymentId: string, t: real)
      returns (status: Option<PreAuthStatus>)
      requires Valid()
      modifies GetSide(side)
      ensures var o := Spec.Preauth(old(State()).On(side), clientOrderId, nextPaymentId, amountPayable, t);
        State() == old(State()).With(side, o.side) && status == o.status
    {
      var balanceRemaining := GetSide(side).readyBalance - amountPayable;
      if balanceRemaining < -t {
        return Some(PreAuthNotEnoughFunds);
      }
      status := GetSide(side).PreauthPayment(clientOrderId, nextPaymentId, amountPayable, t);
    }

    method ConfirmPayment(paymentId: string, side: Side, amountPaid: real, t: real)
      returns (status: Option<ConfirmStatus>)
      requires Valid()
      modifies GetSide(side)
      ensures var o := Spec.Confirm(old(State()).On(side), paymentId, amountPaid, t);
        State() == old(State()).With(side, o.side) && status == o.status
    {
      var balanceRemaining := GetSide(side).preauthBalance - amountPaid;
      if balanceRemaining < -t {
        return Some(ConfirmNotEnoughFunds);
      }
      status := GetSide(side).ConfirmPayment(paymentId, amountPaid, t);
    }
  }
}
