/** What one side of a collateral position is, and what each operation makes of it. */
module CollateralSpec {
  import opened Common

  datatype Spend = Spend(clientOrderId: string, paymentId: string, preauth: real, spent: real)

  /** `seqNum` is absent for withdrawals. */
  datatype Lot = Lot(
    paymentId: string,
    seqNum: Option<nat>,
    unconfirmed: real,
    ready: real,
    preauth: real,
    spent: real,
    spends: seq<Spend>)

  datatype SideState = SideState(
    unconfirmed: real,
    ready: real,
    preauth: real,
    spent: real,
    open: seq<Lot>,
    closed: seq<Lot>)

  datatype PreAuthStatus = Approved(paymentId: string) | PreAuthNotEnoughFunds
  datatype ConfirmStatus = Authorized(seqNums: seq<nat>) | ConfirmNotEnoughFunds

  /** A status of None is the source's failure; `side` is then what the failing call left behind. */
  datatype Outcome<+T> = Outcome(side: SideState, status: Option<T>)

  const EMPTY_SIDE := SideState(0.0, 0.0, 0.0, 0.0, [], [])

  // One lot

  function NewLot(paymentId: string, seqNum: Option<nat>, amount: real): Lot {
    Lot(paymentId, seqNum, amount, 0.0, 0.0, 0.0, [])
  }

  function UnconfirmedOf(lot: Lot): real { lot.unconfirmed }
  function ReadyOf(lot: Lot): real { lot.ready }

  function MoveToReady(lot: Lot, a: real): Lot {
    lot.(unconfirmed := lot.unconfirmed - a, ready := lot.ready + a)
  }

  function MoveToPreauth(lot: Lot, clientOrderId: string, paymentId: string, a: real): Lot {
    lot.(ready := lot.ready - a,
         preauth := lot.preauth + a,
         spends := lot.spends + [Spend(clientOrderId, paymentId, a, 0.0)])
  }

  function MoveToSpent(lot: Lot, a: real, spends: seq<Spend>): Lot {
    lot.(preauth := lot.preauth - a, spent := lot.spent + a, spends := spends)
  }

  predicate UsedUp(lot: Lot, t: real) {
    lot.unconfirmed < t && lot.ready < t && lot.preauth < t
  }

  // The spends of one lot

  /** What a payment still holds in a list of spends. */
  function Held(spends: seq<Spend>, paymentId: string): real {
    if spends == [] then 0.0
    else (if spends[0].paymentId == paymentId then spends[0].preauth else 0.0) + Held(spends[1..], paymentId)
  }

  /** Every spend of the payment is used up. */
  function SpendAll(spends: seq<Spend>, paymentId: string): seq<Spend> {
    if spends == [] then []
    else
      var s := spends[0];
      [if s.paymentId == paymentId then s.(preauth := 0.0, spent := s.spent + s.preauth) else s]
      + SpendAll(spends[1..], paymentId)
  }

  /** What one spend contributes when `due` is left to cover. */
  function Take(s: Spend, due: real, t: real): real {
    if t < due - s.preauth then s.preauth else due
  }

  /** The payment's spends cover `due` in order; what a spend held beyond its share is dropped from it. */
  function SpendDue(spends: seq<Spend>, paymentId: string, due: real, t: real): seq<Spend> {
    if spends == [] then []
    else
      var s := spends[0];
      if s.paymentId == paymentId then
        [s.(preauth := 0.0, spent := s.spent + Take(s, due, t))]
        + SpendDue(spends[1..], paymentId, due - Take(s, due, t), t)
      else [s] + SpendDue(spends[1..], paymentId, due, t)
  }

  /** The part of `due` that those spends record as spent. */
  function Recorded(spends: seq<Spend>, paymentId: string, due: real, t: real): real {
    if spends == [] then 0.0
    else if spends[0].paymentId == paymentId then
      var a := Take(spends[0], due, t);
      a + Recorded(spends[1..], paymentId, due - a, t)
    else Recorded(spends[1..], paymentId, due, t)
  }

  // The boundary scan that the three operations share

  /** `done` says that lot `pos` alone covers the `amount` still left. */
  datatype Scanned = Scanned(amount: real, pos: nat, done: bool)

  function Scan(lots: seq<Lot>, key: Lot -> real, amount: real, t: real): (s: Scanned)
    ensures s.pos <= |lots| && (s.done <==> s.pos < |lots|)
  {
    if lots == [] then Scanned(amount, 0, false)
    else if -t < amount - key(lots[0]) then
      var s := Scan(lots[1..], key, amount - key(lots[0]), t);
      s.(pos := s.pos + 1)
    else Scanned(amount, 0, true)
  }

  /** Lots before the boundary are changed by `full`, the boundary lot by `part`. */
  function Moved(lots: seq<Lot>, sc: Scanned, full: Lot -> Lot, part: (Lot, real) -> Lot): seq<Lot> {
    seq(|lots|, i requires 0 <= i < |lots| =>
      if i < sc.pos then full(lots[i]) else if i == sc.pos && sc.done then part(lots[i], sc.amount) else lots[i])
  }

  // The operations of a side

  predicate HasSeqNum(lots: seq<Lot>, seqNum: Option<nat>) {
    exists l :: l in lots && l.seqNum == seqNum
  }

  function OpenLot(s: SideState, paymentId: string, seqNum: Option<nat>, amount: real): SideState {
    if seqNum.Some? && (HasSeqNum(s.open, seqNum) || HasSeqNum(s.closed, seqNum)) then s
    else s.(open := s.open + [NewLot(paymentId, seqNum, amount)], unconfirmed := s.unconfirmed + amount)
  }

  function FullyReady(lot: Lot): Lot { MoveToReady(lot, lot.unconfirmed) }

  function ReadyScan(s: SideState, amount: real, t: real): Scanned {
    Scan(s.open, UnconfirmedOf, amount, t)
  }

  function ReadyLots(s: SideState, amount: real, t: real): seq<Lot> {
    Moved(s.open, ReadyScan(s, amount, t), FullyReady, MoveToReady)
  }

  function AddReady(s: SideState, amount: real, t: real): Outcome<()> {
    var sc := ReadyScan(s, amount, t);
    if sc.done && (s.open[sc.pos].ready + sc.amount < -t || s.open[sc.pos].unconfirmed - sc.amount < -t) then
      Outcome(s, None)
    else
      var left := s.(open := ReadyLots(s, amount, t));
      if s.ready + amount < -t || s.unconfirmed - amount < -t then Outcome(left, None)
      else Outcome(left.(ready := s.ready + amount, unconfirmed := s.unconfirmed - amount), Some(()))
  }

  function FullyPreauth(clientOrderId: string, paymentId: string): Lot -> Lot {
    (lot: Lot) => MoveToPreauth(lot, clientOrderId, paymentId, lot.ready)
  }

  function PartlyPreauth(clientOrderId: string, paymentId: string): (Lot, real) -> Lot {
    (lot: Lot, a: real) => MoveToPreauth(lot, clientOrderId, paymentId, a)
  }

  function PreauthScan(s: SideState, amount: real, t: real): Scanned {
    Scan(s.open, ReadyOf, amount, t)
  }

  function PreauthLots(s: SideState, clientOrderId: string, paymentId: string, amount: real, t: real): seq<Lot> {
    Moved(s.open, PreauthScan(s, amount, t), FullyPreauth(clientOrderId, paymentId),
          PartlyPreauth(clientOrderId, paymentId))
  }

  function PreauthSide(s: SideState, clientOrderId: string, paymentId: string, amount: real, t: real)
    : Outcome<PreAuthStatus>
  {
    var sc := PreauthScan(s, amount, t);
    if sc.done && (s.open[sc.pos].ready - sc.amount < -t || s.open[sc.pos].preauth + sc.amount < -t) then
      Outcome(s, None)
    else
      var left := s.(open := PreauthLots(s, clientOrderId, paymentId, amount, t));
      if s.ready - amount < -t || s.preauth + amount < -t then Outcome(left, None)
      else Outcome(left.(ready := s.ready - amount, preauth := s.preauth + amount), Some(Approved(paymentId)))
  }

  function Preauth(s: SideState, clientOrderId: string, paymentId: string, amount: real, t: real)
    : Outcome<PreAuthStatus>
  {
    if s.ready - amount < -t then Outcome(s, Some(PreAuthNotEnoughFunds))
    else PreauthSide(s, clientOrderId, paymentId, amount, t)
  }

  function HeldBy(paymentId: string): Lot -> real {
    (lot: Lot) => Held(lot.spends, paymentId)
  }

  function FullySpent(paymentId: string): Lot -> Lot {
    (lot: Lot) => MoveToSpent(lot, Held(lot.spends, paymentId), SpendAll(lot.spends, paymentId))
  }

  function PartlySpent(paymentId: string, t: real): (Lot, real) -> Lot {
    (lot: Lot, a: real) => MoveToSpent(lot, a, SpendDue(lot.spends, paymentId, a, t))
  }

  function ConfirmScan(s: SideState, paymentId: string, amount: real, t: real): Scanned {
    Scan(s.open, HeldBy(paymentId), amount, t)
  }

  function SpentLots(s: SideState, paymentId: string, amount: real, t: real): seq<Lot> {
    Moved(s.open, ConfirmScan(s, paymentId, amount, t), FullySpent(paymentId), PartlySpent(paymentId, t))
  }

  /** The deposit number of a lot from which the payment took more than the tolerance. */
  function SeqNumOf(lot: Lot, took: real, t: real): seq<nat> {
    if t < took && lot.seqNum.Some? then [lot.seqNum.value] else []
  }

  function SeqNumsOf(lots: seq<Lot>, paymentId: string, t: real): seq<nat> {
    if lots == [] then []
    else SeqNumOf(lots[0], Held(lots[0].spends, paymentId), t) + SeqNumsOf(lots[1..], paymentId, t)
  }

  function SeqNums(s: SideState, paymentId: string, amount: real, t: real): seq<nat> {
    var sc := ConfirmScan(s, paymentId, amount, t);
    SeqNumsOf(s.open[..sc.pos], paymentId, t)
    + if sc.done then SeqNumOf(s.open[sc.pos], Recorded(s.open[sc.pos].spends, paymentId, sc.amount, t), t) else []
  }

  function UsedUpIds(lots: seq<Lot>, t: real): seq<string> {
    if lots == [] then []
    else (if UsedUp(lots[0], t) then [lots[0].paymentId] else []) + UsedUpIds(lots[1..], t)
  }

  function Find(lots: seq<Lot>, paymentId: string): (i: nat)
    ensures i <= |lots| && (i < |lots| ==> lots[i].paymentId == paymentId)
    ensures forall j :: 0 <= j < i ==> lots[j].paymentId != paymentId
  {
    if lots == [] || lots[0].paymentId == paymentId then 0 else 1 + Find(lots[1..], paymentId)
  }

  /** Lots are moved to the closed list one payment ID at a time; `ok` fails when an ID is not there. */
  datatype Closing = Closing(open: seq<Lot>, closed: seq<Lot>, ok: bool)

  function CloseLots(open: seq<Lot>, closed: seq<Lot>, ids: seq<string>): Closing {
    if ids == [] then Closing(open, closed, true)
    else
      var i := Find(open, ids[0]);
      if i == |open| then Closing(open, closed, false)
      else CloseLots(open[..i] + open[i + 1..], closed + [open[i]], ids[1..])
  }

  function ConfirmClosing(s: SideState, paymentId: string, amount: real, t: real): Closing {
    var lots := SpentLots(s, paymentId, amount, t);
    CloseLots(lots, s.closed, UsedUpIds(lots[..ConfirmScan(s, paymentId, amount, t).pos], t))
  }

  function ConfirmSide(s: SideState, paymentId: string, amount: real, t: real): Outcome<ConfirmStatus> {
    var c := ConfirmClosing(s, paymentId, amount, t);
    var left := s.(open := c.open, closed := c.closed);
    if !c.ok || s.spent + amount < -t || s.preauth - amount < -t then Outcome(left, None)
    else
      Outcome(left.(preauth := s.preauth - amount, spent := s.spent + amount),
              Some(Authorized(SeqNums(s, paymentId, amount, t))))
  }

  function Confirm(s: SideState, paymentId: string, amount: real, t: real): Outcome<ConfirmStatus> {
    if s.preauth - amount < -t then Outcome(s, Some(ConfirmNotEnoughFunds))
    else ConfirmSide(s, paymentId, amount, t)
  }
}
