/** Batches of index orders from engagement to completion, and what each event makes of them. */
module BatchManagerSpec {
  import opened Common
  import opened BatchLots
  import opened BatchFillSpec

  datatype Batch = Batch(
    positions: Positions,
    volleySize: real,
    filledVolley: real,
    filledFraction: real,
    realizedValue: real,
    fee: real,
    cancelled: bool,
    timestamp: int)

  /** Lots that completed batches left unallocated. */
  datatype CarryOver = CarryOver(quantity: real, lots: seq<BatchLot>)

  type CarryOvers = map<AssetKey, CarryOver>

  datatype EngagedOrders = EngagedOrders(
    quantities: map<string, real>,
    prices: map<string, real>,
    orders: seq<Engagement>)

  /** An order to buy one asset at no more than the price. */
  datatype AssetOrder = AssetOrder(price: real, quantity: real)

  datatype Message =
    | SendOrders(batch: string, orders: map<string, AssetOrder>)
    | Fill(request: FillRequest)
    | BatchMintable(mints: set<string>)
    | BatchComplete(id: string, continued: seq<string>)

  /** `orders` holds every solver order, by its key; batches refer to them by key. */
  datatype State = State(
    batches: map<string, Batch>,
    engagements: map<string, EngagedOrders>,
    readyBatches: seq<string>,
    carryOvers: CarryOvers,
    readyMints: set<string>,
    totalVolley: real,
    orders: map<string, SolverOrder>,
    outbox: seq<Message>)

  datatype Config = Config(th: Thresholds, mintWait: int, maxBatchSize: nat)

  const NOTHING := State(map[], map[], [], map[], {}, 0.0, map[], [])

  // One batch

  function NewPosition(price: real, quantity: real): Position {
    Position(0.0, quantity, 0.0, price * quantity, 0.0, false, 0.0, [], [])
  }

  predicate Priced(e: EngagedOrders) {
    forall symbol :: symbol in e.quantities ==> symbol in e.prices
  }

  function NewPositions(e: EngagedOrders): Positions
    requires Priced(e)
  {
    map symbol | symbol in e.quantities :: AssetKey(symbol, Buy) := NewPosition(e.prices[symbol], e.quantities[symbol])
  }

  function VolleyAt(positions: Positions): AssetKey -> real {
    (k: AssetKey) => if k in positions then positions[k].volleySize else 0.0
  }

  ghost function VolleyOf(positions: Positions): real {
    SumOver(positions.Keys, VolleyAt(positions))
  }

  /** Assets with something carried in are taken from the carry-over alone and not ordered in this batch. */
  function CarriedIn(p: Position, c: CarryOver): Position {
    p.(openLots := p.openLots + c.lots, quantity := p.quantity + c.quantity,
       cancelled := true, quantityCancelled := 0.0)
  }

  function CarryIn(positions: Positions, carryOvers: CarryOvers): Positions {
    map k | k in positions :: if k in carryOvers then CarriedIn(positions[k], carryOvers[k]) else positions[k]
  }

  predicate AllCancelled(positions: Positions) {
    forall k :: k in positions ==> positions[k].cancelled
  }

  ghost function NewBatch(e: EngagedOrders, carryOvers: CarryOvers, now: int): Batch
    requires Priced(e)
  {
    var positions := CarryIn(NewPositions(e), carryOvers);
    Batch(positions, VolleyOf(NewPositions(e)), 0.0, 0.0, 0.0, 0.0, AllCancelled(positions), now)
  }

  /** What is sent to the exchange: nothing for an asset carried in, and no negligible quantities. */
  function ToSend(e: EngagedOrders, carryOvers: CarryOvers, t: real): map<string, AssetOrder>
    requires Priced(e)
  {
    map symbol | symbol in e.quantities && AssetKey(symbol, Buy) !in carryOvers && t < e.quantities[symbol]
      :: AssetOrder(e.prices[symbol], e.quantities[symbol])
  }

  datatype Execution = Execution(
    orderId: string, lotId: string, closingLotId: Option<string>, price: real, quantity: real, fee: real)

  function NewLot(x: Execution): BatchLot {
    BatchLot(x.orderId, x.lotId, x.closingLotId, x.quantity, x.quantity, x.price, x.fee)
  }

  function ValueOf(x: Execution): real { x.quantity * x.price }

  /** `ok` fails when the asset is not in the batch or a division by zero stops the update half way. */
  datatype Updated = Updated(batch: Batch, ok: bool)

  function UpdateBatch(b: Batch, k: AssetKey, x: Execution, now: int): Updated {
    if k !in b.positions then Updated(b, false)
    else
      var p := b.positions[k].(quantity := b.positions[k].quantity + x.quantity);
      if p.orderQuantity == 0.0 then Updated(b.(positions := b.positions[k := p]), false)
      else
        var filledVolley := b.filledVolley + x.quantity / p.orderQuantity * p.volleySize;
        if b.volleySize == 0.0 then Updated(b.(positions := b.positions[k := p], filledVolley := filledVolley), false)
        else
          var value := ValueOf(x);
          var p' := p.(realizedValue := p.realizedValue + value, fee := p.fee + x.fee,
                       openLots := p.openLots + [NewLot(x)]);
          Updated(b.(positions := b.positions[k := p'], filledVolley := filledVolley,
                     filledFraction := filledVolley / b.volleySize, realizedValue := b.realizedValue + value,
                     fee := b.fee + x.fee, timestamp := now), true)
  }

  function CancelAsset(b: Batch, k: AssetKey, quantity: real, cancelled: bool): Batch
    requires k in b.positions
  {
    var positions := b.positions[k := b.positions[k].(cancelled := cancelled, quantityCancelled := quantity)];
    b.(positions := positions, cancelled := b.cancelled || AllCancelled(positions))
  }

  function Emptied(positions: Positions): Positions {
    map k | k in positions :: positions[k].(openLots := LeftBehind(positions[k].openLots))
  }

  function CarriedFrom(p: Position): CarryOver {
    CarryOver(Available(p.openLots), p.openLots)
  }

  function MoreCarried(c: CarryOver, d: CarryOver): CarryOver {
    CarryOver(c.quantity + d.quantity, c.lots + d.lots)
  }

  /** What the batch leaves is added to what earlier batches left. */
  function CarryOut(positions: Positions, carryOvers: CarryOvers): CarryOvers {
    map k | k in positions.Keys + carryOvers.Keys && (k in carryOvers || positions[k].openLots != []) ::
      if k !in positions || positions[k].openLots == [] then carryOvers[k]
      else if k in carryOvers then MoreCarried(carryOvers[k], CarriedFrom(positions[k]))
      else CarriedFrom(positions[k])
  }

  // Events

  datatype Answer = Done | Failed

  predicate CanFill(s: State, id: string, i: nat) {
    id in s.batches && id in s.engagements && i < |s.engagements[id].orders|
        && s.engagements[id].orders[i].order in s.orders
  }

  function FillOf(s: State, id: string, i: nat, th: Thresholds): Filled
    requires CanFill(s, id, i)
  {
    var e := s.engagements[id].orders[i];
    FillIndexOrder(s.batches[id].positions, e, s.orders[e.order], s.batches[id].timestamp, th)
  }

  function AfterFill(s: State, id: string, i: nat, f: Filled): State
    requires CanFill(s, id, i)
  {
    var es := s.engagements[id];
    var key := es.orders[i].order;
    s.(batches := s.batches[id := s.batches[id].(positions := f.positions)],
       engagements := s.engagements[id := es.(orders := es.orders[i := f.engagement])],
       orders := s.orders[key := f.order],
       readyMints := if f.mintable then s.readyMints + {key} else s.readyMints,
       outbox := s.outbox + if f.request.Some? then [Fill(f.request.value)] else [])
  }

  /** The engaged orders are filled one after the other; the first error stops it. */
  function FillFrom(s: State, id: string, i: nat, th: Thresholds): (State, Answer)
    decreases if id in s.engagements then |s.engagements[id].orders| - i else 0
  {
    if !CanFill(s, id, i) then (s, if id in s.engagements then Done else Failed)
    else
      var f := FillOf(s, id, i, th);
      var s' := AfterFill(s, id, i, f);
      if f.error.Some? then (s', Failed) else FillFrom(s', id, i + 1, th)
  }

  predicate MintDue(o: SolverOrder, now: int, wait: int) {
    o.status.FullyMintable? || (o.status.PartlyMintable? && o.timestamp <= now - wait)
  }

  function DueMints(s: State, now: int, wait: int): set<string> {
    set key | key in s.readyMints && key in s.orders && MintDue(s.orders[key], now, wait)
  }

  function Promote(orders: map<string, SolverOrder>, due: set<string>): map<string, SolverOrder> {
    map key | key in orders :: if key in due then orders[key].(status := FullyMintable) else orders[key]
  }

  predicate Continues(o: SolverOrder) {
    o.status.Engaged? || o.status.PartlyMintable?
  }

  function Continued(es: seq<Engagement>, orders: map<string, SolverOrder>): seq<string> {
    if es == [] then []
    else
      (if es[0].order in orders && Continues(orders[es[0].order]) then [es[0].order] else [])
      + Continued(es[1..], orders)
  }

  /** Collateral still engaged is set aside for the next batch. */
  function Carry(o: SolverOrder): SolverOrder {
    o.(carried := o.engaged, engaged := 0.0)
  }

  function CarryAll(orders: map<string, SolverOrder>, keys: seq<string>): map<string, SolverOrder> {
    if keys == [] then orders
    else CarryAll(if keys[0] in orders then orders[keys[0] := Carry(orders[keys[0]])] else orders, keys[1..])
  }

  function Complete(s: State, id: string, now: int, c: Config): (State, Answer)
    requires id in s.batches
  {
    var b := s.batches[id];
    var s1 := s.(batches := s.batches[id := b.(positions := Emptied(b.positions))],
                 carryOvers := CarryOut(b.positions, s.carryOvers));
    if id !in s.engagements then (s1, Failed)
    else
      var due := DueMints(s, now, c.mintWait);
      var promoted := Promote(s.orders, due);
      var continued := Continued(s.engagements[id].orders, promoted);
      (s1.(readyMints := s.readyMints - due,
           orders := CarryAll(promoted, continued),
           totalVolley := s.totalVolley - b.volleySize,
           outbox := s.outbox + (if due != {} then [BatchMintable(due)] else []) + [BatchComplete(id, continued)]),
       Done)
  }

  function NewEngagement(s: State, id: string, e: EngagedOrders): (State, Answer) {
    if id in s.engagements then (s, Failed) else (s.(engagements := s.engagements[id := e]), Done)
  }

  /** The order manager's answer for one order: what it engaged and what remains. */
  datatype Confirmation = Confirmation(engaged: real, remaining: real)

  function Engage(o: SolverOrder, c: Confirmation, now: int): SolverOrder {
    o.(engaged := c.engaged + o.carried, remaining := c.remaining, carried := 0.0, timestamp := now,
       status := if o.status.Ready? then Engaged else o.status)
  }

  /** An order the answer does not mention is invalid. */
  function EngageOrder(o: SolverOrder, key: string, confirmations: map<string, Confirmation>, now: int): SolverOrder {
    if key in confirmations then Engage(o, confirmations[key], now) else o.(status := InvalidOrder)
  }

  function EngageFrom(s: State, id: string, i: nat, confirmations: map<string, Confirmation>, now: int): State
    decreases if id in s.engagements then |s.engagements[id].orders| - i else 0
  {
    if id !in s.engagements || |s.engagements[id].orders| <= i then s
    else
      var es := s.engagements[id];
      var e := es.orders[i];
      if e.order !in s.orders then EngageFrom(s, id, i + 1, confirmations, now)
      else
        var o := EngageOrder(s.orders[e.order], e.order, confirmations, now);
        var e' := if e.order in confirmations then e.(collateral := o.engaged) else e;
        EngageFrom(s.(orders := s.orders[e.order := o],
                      engagements := s.engagements[id := es.(orders := es.orders[i := e'])]),
                   id, i + 1, confirmations, now)
  }

  function EngageOrders(s: State, id: string, confirmations: map<string, Confirmation>, now: int): State
    requires id in s.engagements
  {
    var s' := EngageFrom(s, id, 0, confirmations, now);
    s'.(readyBatches := s'.readyBatches + [id])
  }

  ghost function SendBatch(s: State, id: string, now: int, c: Config): (State, Answer) {
    if id !in s.engagements || s.engagements[id].orders == [] || !Priced(s.engagements[id]) then (s, Failed)
    else
      var e := s.engagements[id];
      var b := NewBatch(e, s.carryOvers, now);
      var toSend := ToSend(e, s.carryOvers, c.th.zero);
      var s' := s.(batches := s.batches[id := b],
                   carryOvers := s.carryOvers - NewPositions(e).Keys,
                   totalVolley := s.totalVolley + b.volleySize);
      if id in s.batches then (s', Failed)
      else (s'.(outbox := s.outbox + if toSend != map[] then [SendOrders(id, toSend)] else []), Done)
  }

  /** The first fill of a new batch, from what was carried in; a batch with nothing to wait for completes at once. */
  function FirstFill(s: State, id: string, now: int, c: Config): (State, Answer) {
    var filled := FillFrom(s, id, 0, c.th);
    if filled.1.Failed? || id !in filled.0.batches || !filled.0.batches[id].cancelled then filled
    else Complete(filled.0, id, now, c)
  }

  /** `sent` are the batches that were sent; `ok` fails when any could not be. */
  datatype Sending = Sending(s: State, sent: seq<string>, ok: bool)

  /** Batches without an engagement are skipped. */
  ghost function SendAll(s: State, ids: seq<string>, now: int, c: Config): Sending
    decreases |ids|
  {
    if ids == [] then Sending(s, [], true)
    else if ids[0] !in s.engagements then SendAll(s, ids[1..], now, c)
    else
      var first := SendBatch(s, ids[0], now, c);
      var rest := SendAll(first.0, ids[1..], now, c);
      if first.1.Done? then rest.(sent := [ids[0]] + rest.sent) else rest.(ok := false)
  }

  /** Every sent batch gets its first fill; a failure does not stop the others. */
  function FirstFillAll(s: State, ids: seq<string>, now: int, c: Config): (State, Answer)
    decreases |ids|
  {
    if ids == [] then (s, Done)
    else
      var first := FirstFill(s, ids[0], now, c);
      var rest := FirstFillAll(first.0, ids[1..], now, c);
      (rest.0, if first.1.Failed? then Failed else rest.1)
  }

  function Cleanup(s: State): State {
    var gone := set id | id in s.batches && s.batches[id].cancelled;
    s.(batches := s.batches - gone, engagements := s.engagements - gone)
  }

  /** Up to the maximum number of ready batches are sent and filled from what was carried in; when all of that
      succeeds, cancelled batches are dropped. */
  ghost function ProcessBatches(s: State, now: int, c: Config): (State, Answer) {
    var n := if |s.readyBatches| < c.maxBatchSize then |s.readyBatches| else c.maxBatchSize;
    var sending := SendAll(s.(readyBatches := s.readyBatches[n..]), s.readyBatches[..n], now, c);
    var filled := FirstFillAll(sending.s, sending.sent, now, c);
    if !sending.ok || filled.1.Failed? then (filled.0, Failed) else (Cleanup(filled.0), Done)
  }

  function HandleNewLot(s: State, id: string, k: AssetKey, x: Execution, now: int, c: Config): (State, Answer) {
    if id !in s.batches then (s, Failed)
    else
      var u := UpdateBatch(s.batches[id], k, x, now);
      var s' := s.(batches := s.batches[id := u.batch]);
      if !u.ok then (s', Failed) else FillFrom(s', id, 0, c.th)
  }

  function HandleCancelOrder(s: State, id: string, k: AssetKey, quantity: real, cancelled: bool, now: int, c: Config)
    : (State, Answer)
  {
    if id !in s.batches || k !in s.batches[id].positions then (s, Failed)
    else
      var b := CancelAsset(s.batches[id], k, quantity, cancelled);
      var s' := s.(batches := s.batches[id := b]);
      if !b.cancelled then (s', Done) else Complete(s', id, now, c)
  }
}
