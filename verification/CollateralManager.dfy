/** The collateral manager: each update works on a copy of the client's position and commits it only on success. */
module CollateralManager {
  import opened Common
  import opened CollateralSpec
  import opened CollateralBooking
  import opened CollateralPosition

  datatype Client = Client(chainId: nat, address: string)

  datatype TransferAnswer = TransferReady(fee: real) | TransferNotReady

  class Manager {
    var clientFunds: map<Client, PositionState>
    const zeroThreshold: real

    constructor (zeroThreshold: real)
      ensures clientFunds == map[] && this.zeroThreshold == zeroThreshold
    {
      this.zeroThreshold := zeroThreshold;
      clientFunds := map[];
    }

    /** The position of a client, empty if there is none yet. */
    function Funds(client: Client): PositionState
      reads this
    {
      if client in clientFunds then clientFunds[client] else EMPTY_POSITION
    }

    method HandleDeposit(client: Client, paymentId: string, seqNum: nat, amount: real)
      modifies this
      ensures var funds := old(Funds(client)); var after := OpenLot(funds.cr, paymentId, Some(seqNum), amount);
        clientFunds == old(clientFunds)[client := funds.With(Buy, after)]
    {
      var funds := new CollateralPosition(Funds(client));
      funds.Deposit(paymentId, Some(seqNum), amount);
      clientFunds := clientFunds[client := funds.State()];
    }

    method HandleWithdrawal(client: Client, paymentId: string, amount: real)
      modifies this
      ensures var funds := old(Funds(client)); var after := OpenLot(funds.dr, paymentId, None, amount);
        clientFunds == old(clientFunds)[client := funds.With(Sell, after)]
    {
      var funds := new CollateralPosition(Funds(client));
      funds.Withdraw(paymentId, amount);
      clientFunds := clientFunds[client := funds.State()];
    }

    /** None is the error return: the client is unknown or the arithmetic failed, and nothing changed. */
    method PreauthPayment(client: Client, clientOrderId: string, side: Side, amountPayable: real, nextPaymentId: string)
      returns (status: Option<PreAuthStatus>)
      modifies this
      ensures client !in old(clientFunds) ==> status == None
      ensures client in old(clientFunds) ==>
        var funds := old(clientFunds)[client];
        var after := Preauth(funds.On(side), clientOrderId, nextPaymentId, amountPayable, zeroThreshold);
        && status == after.status
        && (status.Some? ==> clientFunds == old(clientFunds)[client := funds.With(side, after.side)])
      ensures status.None? ==> clientFunds == old(clientFunds)
    {
      if client !in clientFunds {
        return None;
      }
      var funds := new CollateralPosition(clientFunds[client]);
      status := funds.PreauthPayment(clientOrderId, side, amountPayable, nextPaymentId, zeroThreshold);
      if status.Some? {
        clientFunds := clientFunds[client := funds.State()];
      }
    }

    method ConfirmPayment(client: Client, paymentId: string, side: Side, amountPaid: real)
      returns (status: Option<ConfirmStatus>)
      modifies this
      ensures client !in old(clientFunds) ==> status == None
      ensures client in old(clientFunds) ==>
        var funds := old(clientFunds)[client];
        var after := Confirm(funds.On(side), paymentId, amountPaid, zeroThreshold);
        && status == after.status
        && (status.Some? ==> clientFunds == old(clientFunds)[client := funds.With(side, after.side)])
      ensures status.None? ==> clientFunds == old(clientFunds)
    {
      if client !in clientFunds {
        return None;
      }
      var funds := new CollateralPosition(clientFunds[client]);
      status := funds.ConfirmPayment(paymentId, side, amountPaid, zeroThreshold);
      if status.Some? {
        clientFunds := clientFunds[client := funds.State()];
      }
    }

    method BookRecords(client: Client, clientOrderId: string, side: Side, amountReady: Option<real>, fee: real)
      returns (ok: bool)
      modifies this
      ensures client in old(clientFunds) ==>
        var funds := old(clientFunds)[client];
        var after := CollateralBooking.BookRecords(funds.On(side), clientOrderId, amountReady, fee, zeroThreshold);
        && ok == after.Some?
        && (ok ==> clientFunds == old(clientFunds)[client := funds.With(side, after.value)])
      ensures client !in old(clientFunds) ==> !ok
      ensures !ok ==> clientFunds == old(clientFunds)
    {
      hide AddReady, Preauth, Confirm;
      if client !in clientFunds {
        return false;
      }
      var funds := new CollateralPosition(clientFunds[client]);
      if amountReady.Some? {
        var ready := funds.AddReady(side, amountReady.value, zeroThreshold);
        if ready.None? {
          return false;
        }
      }
      var feeReady := funds.AddReady(side, fee, zeroThreshold);
      if feeReady.None? {
        return false;
      }
      var held := funds.PreauthPayment(clientOrderId, side, fee, CHARGES, zeroThreshold);
      if held.None? {
        return false;
      }
      var paid := funds.ConfirmPayment(CHARGES, side, fee, zeroThreshold);
      if paid.None? {
        return false;
      }
      clientFunds := clientFunds[client := funds.State()];
      ok := true;
    }

    /** The answers of the three steps are ignored; what they leave is committed. */
    method CloseAllLots(client: Client, clientOrderId: string, side: Side)
      modifies this
      ensures client in old(clientFunds) ==>
        var funds := old(clientFunds)[client];
        var after := CollateralBooking.CloseAllLots(funds.On(side), clientOrderId, zeroThreshold);
        clientFunds == old(clientFunds)[client := funds.With(side, after)]
      ensures client !in old(clientFunds) ==> clientFunds == old(clientFunds)
    {
      hide AddReady, Preauth, Confirm;
      if client !in clientFunds {
        return;
      }
      var funds := new CollateralPosition(clientFunds[client]);
      var unconfirmedAmount := funds.GetSide(side).unconfirmedBalance;
      var ready := funds.AddReady(side, unconfirmedAmount, zeroThreshold);
      var held := funds.PreauthPayment(clientOrderId, side, unconfirmedAmount, SYSTEM, zeroThreshold);
      var paid := funds.ConfirmPayment(SYSTEM, side, unconfirmedAmount, zeroThreshold);
      clientFunds := clientFunds[client := funds.State()];
    }

    /** The solver hears that collateral is ready exactly when the booking was kept. */
    method HandleTransferComplete(client: Client, clientOrderId: string, amount: real, fee: real)
      returns (answer: TransferAnswer)
      modifies this
      ensures client !in old(clientFunds) ==> clientFunds == old(clientFunds) && answer == TransferNotReady
      ensures client in old(clientFunds) ==>
        var funds := old(clientFunds)[client];
        var booked := CollateralBooking.BookRecords(funds.cr, clientOrderId, Some(amount), fee, zeroThreshold);
        var after := TransferComplete(funds.cr, clientOrderId, amount, fee, zeroThreshold);
        && clientFunds == old(clientFunds)[client := funds.With(Buy, after)]
        && answer == if booked.Some? then TransferReady(fee) else TransferNotReady
    {
      var ok := BookRecords(client, clientOrderId, Buy, Some(amount), fee);
      if ok {
        answer := TransferReady(fee);
      } else {
        CloseAllLots(client, clientOrderId, Buy);
        answer := TransferNotReady;
      }
    }

    method HandleTransferFailed(client: Client, clientOrderId: string, fee: real)
      modifies this
      ensures client !in old(clientFunds) ==> clientFunds == old(clientFunds)
      ensures client in old(clientFunds) ==>
        var funds := old(clientFunds)[client];
        var after := TransferFailed(funds.cr, clientOrderId, fee, zeroThreshold);
        clientFunds == old(clientFunds)[client := funds.With(Buy, after)]
    {
      var ok := BookRecords(client, clientOrderId, Buy, None, fee);
      CloseAllLots(client, clientOrderId, Buy);
    }
  }
}
