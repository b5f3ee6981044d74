/** Multi-step transactions over one collateral side: booking a finished transfer and closing out a failed one. */
module CollateralBooking {
  import opened Common
  import opened CollateralSpec
  import opened CollateralTheory

  const CHARGES := "Charges"
  const SYSTEM := "System"

  /** All steps or none: None when a step fails, and then nothing is kept. Lack of funds is an answer, not a failure. */
  function BookFee(s: SideState, clientOrderId: string, fee: real, t: real): Option<SideState> {
    var ready := AddReady(s, fee, t);
    if ready.status.None? then None else
      var held := Preauth(ready.side, clientOrderId, CHARGES, fee, t);
      if held.status.None? then None else
        var paid := Confirm(held.side, CHARGES, fee, t);
        if paid.status.None? then None else Some(paid.side)
  }

  function BookRecords(s: SideState, clientOrderId: string, amountReady: Option<real>, fee: real, t: real)
    : Option<SideState>
  {
    match amountReady
    case None => BookFee(s, clientOrderId, fee, t)
    case Some(amount) =>
      var ready := AddReady(s, amount, t);
      if ready.status.None? then None else BookFee(ready.side, clientOrderId, fee, t)
  }

  /** Every step is tried and whatever it leaves is kept. */
  function CloseAllLots(s: SideState, clientOrderId: string, t: real): SideState {
    var u := s.unconfirmed;
    var ready := AddReady(s, u, t).side;
    var held := Preauth(ready, clientOrderId, SYSTEM, u, t).side;
    Confirm(held, SYSTEM, u, t).side
  }

  function TransferComplete(s: SideState, clientOrderId: string, amount: real, fee: real, t: real): SideState {
    match BookRecords(s, clientOrderId, Some(amount), fee, t)
    case Some(s') => s'
    case None => CloseAllLots(s, clientOrderId, t)
  }

  function TransferFailed(s: SideState, clientOrderId: string, fee: real, t: real): SideState {
    match BookRecords(s, clientOrderId, None, fee, t)
    case Some(s') => CloseAllLots(s', clientOrderId, t)
    case None => CloseAllLots(s, clientOrderId, t)
  }

  /** Every operation refuses to push a balance below the tolerance. */
  ghost predicate Solvent(s: SideState, t: real) {
    -t <= s.unconfirmed && -t <= s.ready && -t <= s.preauth && -t <= s.spent
  }

  lemma {:induction false} RunsAreSolvent(ops: seq<Op>, t: real)
    requires 0.0 <= t && forall op :: op in ops ==> NonNegative(op)
    ensures Solvent(Run(ops, t), t)
  {
    if ops != [] {
      RunsAreSolvent(ops[..|ops| - 1], t);
      assert NonNegative(ops[|ops| - 1]);
    }
  }

  function Moved(s: SideState, ready: real, fee: real): Amounts {
    Balances(s).Plus(Amounts(-(ready + fee), ready, 0.0, fee))
  }

  lemma FeeNets(s: SideState, clientOrderId: string, fee: real, t: real)
    requires Solvent(s, t) && BookFee(s, clientOrderId, fee, t).Some?
    ensures var s' := BookFee(s, clientOrderId, fee, t).value;
      Balances(s') == Moved(s, 0.0, fee) && Solvent(s', t)
  {
  }

  /** A booking that is kept moves exactly the amount to ready and exactly the fee to spent. */
  lemma BookingNets(s: SideState, clientOrderId: string, amountReady: Option<real>, fee: real, t: real)
    requires Solvent(s, t) && BookRecords(s, clientOrderId, amountReady, fee, t).Some?
    ensures Balances(BookRecords(s, clientOrderId, amountReady, fee, t).value) == Moved(s, OrZero(amountReady), fee)
  {
    match amountReady
    case None => FeeNets(s, clientOrderId, fee, t);
    case Some(amount) => FeeNets(AddReady(s, amount, t).side, clientOrderId, fee, t);
  }

  ghost predicate ClosingStepsSucceed(s: SideState, clientOrderId: string, t: real) {
    var u := s.unconfirmed;
    var ready := AddReady(s, u, t);
    var held := PreauthSide(ready.side, clientOrderId, SYSTEM, u, t);
    ready.status.Some? && held.status.Some? && ConfirmSide(held.side, SYSTEM, u, t).status.Some?
  }

  /** Closing out leaves nothing unconfirmed and adds exactly that amount to spent. */
  lemma ClosingNets(s: SideState, clientOrderId: string, t: real)
    requires Solvent(s, t) && ClosingStepsSucceed(s, clientOrderId, t)
    ensures Balances(CloseAllLots(s, clientOrderId, t)) == Amounts(0.0, s.ready, s.preauth, s.spent + s.unconfirmed)
  {
  }

  /** A failed transfer spends the whole unconfirmed balance, whether or not its fee was booked first. */
  lemma FailedTransferNets(s: SideState, clientOrderId: string, fee: real, t: real)
    requires Solvent(s, t)
    requires var booked := BookRecords(s, clientOrderId, None, fee, t);
      ClosingStepsSucceed(if booked.Some? then booked.value else s, clientOrderId, t)
    ensures Balances(TransferFailed(s, clientOrderId, fee, t)) ==
      Amounts(0.0, s.ready, s.preauth, s.spent + s.unconfirmed)
  {
    hide BookFee, CloseAllLots, ClosingStepsSucceed;
    var booked := BookRecords(s, clientOrderId, None, fee, t);
    if booked.Some? {
      FeeNets(s, clientOrderId, fee, t);
      ClosingNets(booked.value, clientOrderId, t);
    } else {
      ClosingNets(s, clientOrderId, t);
    }
  }

  // Without a tolerance nothing but a lack of funds can stop a step

  ghost predicate Sound(s: SideState, t: real) {
    Solvent(s, t) && LotsAgree(AllLots(s), t)
  }

  lemma RunsAreSound(ops: seq<Op>, t: real)
    requires 0.0 <= t && forall op :: op in ops ==> NonNegative(op)
    ensures Sound(Run(ops, t), t)
  {
    RunsAreSolvent(ops, t);
    SpendsAgreeWithLots(ops, t);
  }

  lemma ReadyStep(s: SideState, amount: real, t: real)
    requires t == 0.0 && 0.0 <= amount && Sound(s, t)
    ensures AddReady(s, amount, t).status.Some? <==> amount <= s.unconfirmed
    ensures amount <= s.unconfirmed ==> AddReady(s, amount, t).side.unconfirmed == s.unconfirmed - amount
    ensures Sound(AddReady(s, amount, t).side, t)
  {
    var sc := ReadyScan(s, amount, t);
    ScanMeaning(s.open, UnconfirmedOf, amount, t);
    if sc.done {
      assert s.open[sc.pos] in AllLots(s);
    }
    StepAgrees(s, MakeReady(amount), t);
  }

  lemma PreauthStep(s: SideState, c: string, p: string, amount: real, t: real)
    requires t == 0.0 && 0.0 <= amount && Sound(s, t)
    ensures PreauthSide(s, c, p, amount, t).status.Some? <==> amount <= s.ready
    ensures amount <= s.ready ==> Sound(PreauthSide(s, c, p, amount, t).side, t)
  {
    var sc := PreauthScan(s, amount, t);
    ScanMeaning(s.open, ReadyOf, amount, t);
    if sc.done {
      var lot := s.open[sc.pos];
      assert lot in AllLots(s) && LotAgrees(lot, t);
      SumByNonNegative(lot.spends, SpendPreauth);
    }
    StepAgrees(s, Authorize(c, p, amount), t);
  }

  lemma ConfirmStep(s: SideState, p: string, amount: real, t: real)
    requires t == 0.0 && 0.0 <= amount && Sound(s, t)
    ensures ConfirmSide(s, p, amount, t).status.Some? <==> amount <= s.preauth
    ensures amount <= s.preauth ==> Sound(ConfirmSide(s, p, amount, t).side, t)
  {
    ConfirmClosingSucceeds(s, p, amount, t);
    StepAgrees(s, Pay(p, amount), t);
  }

  lemma FeeStep(s: SideState, c: string, fee: real, t: real)
    requires t == 0.0 && 0.0 <= fee && Sound(s, t)
    ensures BookFee(s, c, fee, t).Some? <==> fee <= s.unconfirmed
    ensures fee <= s.unconfirmed ==> Sound(BookFee(s, c, fee, t).value, t)
  {
    ReadyStep(s, fee, t);
    if fee <= s.unconfirmed {
      var ready := AddReady(s, fee, t).side;
      PreauthStep(ready, c, CHARGES, fee, t);
      ConfirmStep(PreauthSide(ready, c, CHARGES, fee, t).side, CHARGES, fee, t);
    }
  }

  lemma ClosingStep(s: SideState, c: string, t: real)
    requires t == 0.0 && Sound(s, t)
    ensures ClosingStepsSucceed(s, c, t)
  {
    ReadyStep(s, s.unconfirmed, t);
    var ready := AddReady(s, s.unconfirmed, t).side;
    PreauthStep(ready, c, SYSTEM, s.unconfirmed, t);
    ConfirmStep(PreauthSide(ready, c, SYSTEM, s.unconfirmed, t).side, SYSTEM, s.unconfirmed, t);
  }

  lemma BookingStep(s: SideState, c: string, amount: real, fee: real, t: real)
    requires t == 0.0 && 0.0 <= amount && 0.0 <= fee && Sound(s, t)
    ensures BookRecords(s, c, Some(amount), fee, t).Some? <==> amount + fee <= s.unconfirmed
  {
    hide AddReady, BookFee, Sound;
    ReadyStep(s, amount, t);
    if amount <= s.unconfirmed {
      FeeStep(AddReady(s, amount, t).side, c, fee, t);
    }
  }

  /** After any run, a finished transfer is booked exactly when the unconfirmed balance covers the amount and the fee,
      and otherwise the side is closed out. */
  lemma TransferCompleteExact(ops: seq<Op>, c: string, amount: real, fee: real, t: real)
    requires t == 0.0 && 0.0 <= amount && 0.0 <= fee && forall op :: op in ops ==> NonNegative(op)
    ensures var s := Run(ops, t);
      Balances(TransferComplete(s, c, amount, fee, t)) ==
        if amount + fee <= s.unconfirmed then Moved(s, amount, fee)
        else Amounts(0.0, s.ready, s.preauth, s.spent + s.unconfirmed)
  {
    hide Run, BookRecords, CloseAllLots, ClosingStepsSucceed, LotsAgree;
    var s := Run(ops, t);
    RunsAreSound(ops, t);
    BookingStep(s, c, amount, fee, t);
    if amount + fee <= s.unconfirmed {
      BookingNets(s, c, Some(amount), fee, t);
    } else {
      ClosingStep(s, c, t);
      ClosingNets(s, c, t);
    }
  }

  /** After any run, a failed transfer leaves nothing unconfirmed and adds exactly that amount to spent. */
  lemma TransferFailedExact(ops: seq<Op>, c: string, fee: real, t: real)
    requires t == 0.0 && 0.0 <= fee && forall op :: op in ops ==> NonNegative(op)
    ensures var s := Run(ops, t);
      Balances(TransferFailed(s, c, fee, t)) == Amounts(0.0, s.ready, s.preauth, s.spent + s.unconfirmed)
  {
    var s := Run(ops, t);
    RunsAreSound(ops, t);
    FeeStep(s, c, fee, t);
    ClosingStep(if fee <= s.unconfirmed then BookFee(s, c, fee, t).value else s, c, t);
    FailedTransferNets(s, c, fee, t);
  }
}
