/** The order manager: the queues of all users' orders, and what the solver tells it about them. */
module OrderManager {
  import opened Common
  import opened BatchLots
  import opened BatchManagerSpec
  import Spec = IndexOrderSpec
  import opened IndexOrder
  import IndexOrderTheory
  import opened UpdateLedger
  import MintInvoice

  /** One order per user and index. */
  datatype Key = Key(chainId: nat, address: string, symbol: string)

  type Orders = map<Key, Spec.Order>

  datatype EngageRequest = EngageRequest(key: Key, id: string, amount: real)

  /** Answers are found by the user's address and the ID alone. */
  datatype AnswerKey = AnswerKey(address: string, id: string)

  type Answers = map<AnswerKey, Confirmation>

  function AnswerKeyOf(r: EngageRequest): AnswerKey { AnswerKey(r.key.address, r.id) }

  /** The answers so far; `ok` fails on the first order that cannot be engaged, and what was engaged before stays. */
  datatype Engaged = Engaged(orders: Orders, answers: Answers, ok: bool)

  function EngageAll(orders: Orders, requests: seq<EngageRequest>, answers: Answers, t: real): Engaged {
    if requests == [] then Engaged(orders, answers, true)
    else
      var r := requests[0];
      if r.key !in orders then Engaged(orders, answers, false)
      else
        var e := Spec.SolverEngageOne(orders[r.key], r.id, r.amount, t);
        if e.EngageFailed? then Engaged(orders, answers, false)
        else
          EngageAll(orders[r.key := e.order], requests[1..],
                    answers[AnswerKeyOf(r) := Confirmation(r.amount - OrZero(e.unmatched), e.remaining)], t)
  }

  /** The closed updates are dropped with the mint; the order goes when no update is left in its queue. */
  function AfterMint(orders: Orders, key: Key, o: Spec.Order): Orders {
    if o.updates == [] then orders - {key} else orders[key := o.(closedUpdates := [])]
  }

  class Manager {
    var indexOrders: Orders
    const tolerance: real

    constructor (tolerance: real)
      ensures indexOrders == map[] && this.tolerance == tolerance
    {
      this.tolerance, indexOrders := tolerance, map[];
    }

    /** Routed collateral arrived; the answer is what the solver is told. */
    method CollateralReady(key: Key, id: string, collateral: real, fees: real) returns (ok: bool)
      modifies this
      ensures var r :=
          if key !in old(indexOrders) then None
          else Spec.CollateralReady(old(indexOrders)[key], id, collateral, fees, tolerance);
        && ok == r.Some?
        && indexOrders == if ok then old(indexOrders)[key := r.value] else old(indexOrders)
    {
      if key !in indexOrders {
        return false;
      }
      var order := new IndexOrder.FromState(indexOrders[key]);
      ok := order.CollateralReady(id, collateral, fees, tolerance);
      if ok {
        indexOrders := indexOrders[key := order.State()];
      }
    }

    method FillOrderRequest(key: Key, id: string, spent: real, quantity: real) returns (ok: bool)
      modifies this
      ensures var r :=
          if key !in old(indexOrders) then None
          else Spec.FillOrder(old(indexOrders)[key], id, spent, quantity);
        && ok == r.Some?
        && indexOrders == if ok then old(indexOrders)[key := r.value] else old(indexOrders)
    {
      if key !in indexOrders {
        return false;
      }
      var order := new IndexOrder.FromState(indexOrders[key]);
      ok := order.FillOrderRequest(id, spent, quantity);
      if ok {
        indexOrders := indexOrders[key := order.State()];
      }
    }

    /** Engages the batch's orders one after the other; None is the error return, after which nothing is answered. */
    method EngageOrders(requests: seq<EngageRequest>) returns (answers: Option<Answers>)
      modifies this
      ensures var e := EngageAll(old(indexOrders), requests, map[], tolerance);
        indexOrders == e.orders && answers == if e.ok then Some(e.answers) else None
    {
      hide Spec.SolverEngageOne;
      var result: Answers := map[];
      var i := 0;
      assert requests[0..] == requests;
      while i < |requests|
        invariant i <= |requests|
        invariant EngageAll(old(indexOrders), requests, map[], tolerance)
               == EngageAll(indexOrders, requests[i..], result, tolerance)
      {
        var r := requests[i];
        assert requests[i..][0] == r && requests[i..][1..] == requests[i + 1..];
        if r.key !in indexOrders {
          return None;
        }
        var order := new IndexOrder.FromState(indexOrders[r.key]);
        var engaged := order.SolverEngageOne(r.id, r.amount, tolerance);
        if engaged.None? {
          return None;
        }
        indexOrders := indexOrders[r.key := order.State()];
        var (remaining, unmatched) := engaged.value;
        var collateral := if unmatched.Some? then r.amount - unmatched.value else r.amount;
        result := result[AnswerKeyOf(r) := Confirmation(collateral, remaining)];
        i := i + 1;
      }
      answers := Some(result);
    }

    method OrderFailed(key: Key, id: string) returns (ok: bool)
      modifies this
      ensures ok == (key in old(indexOrders))
      ensures indexOrders == if ok then old(indexOrders)[key := Spec.SolverCancel(old(indexOrders)[key], id)]
          else old(indexOrders)
    {
      if key !in indexOrders {
        return false;
      }
      var order := new IndexOrder.FromState(indexOrders[key]);
      order.SolverCancel(id);
      indexOrders := indexOrders[key := order.State()];
      ok := true;
    }

    /** The order was minted: its update is closed and invoiced. None is the error return: the update was not fully
        engaged, and nothing changed, or the invoice could not be drawn up. */
    method OrderRequestMinted(
        key: Key, id: string, paymentId: string, filledQuantity: real, amountPaid: real, lots: seq<AssetLot>)
      returns (invoice: Option<MintInvoice.Invoice>)
      modifies this
      ensures var done := if key in old(indexOrders) then Spec.SolverComplete(old(indexOrders)[key], id) else None;
        if done.None? then invoice == None && indexOrders == old(indexOrders)
        else
          && indexOrders == AfterMint(old(indexOrders), key, done.value)
          && var u := Spec.LastOf(done.value.closedUpdates, id);
             invoice ==
               if u.None? then None else MintInvoice.TryNew(u.value, paymentId, filledQuantity, amountPaid, lots)
    {
      if key !in indexOrders {
        return None;
      }
      var order := new IndexOrder.FromState(indexOrders[key]);
      var completed := order.SolverComplete(id);
      if !completed {
        return None;
      }
      indexOrders := if order.orderUpdates == [] then indexOrders - {key} else indexOrders[key := order.State()];
      var update, closed := order.DrainClosedUpdates(id);
      if key in indexOrders {
        indexOrders := indexOrders[key := order.State()];
      }
      invoice :=
        if update.None? then None
        else MintInvoice.TryNew(update.value, paymentId, filledQuantity, amountPaid, lots);
    }
  }

  // One order through a batch of engagements

  /** What a batch of requests does to one user's order. */
  function OpsAt(requests: seq<EngageRequest>, key: Key): seq<IndexOrderTheory.Op> {
    if requests == [] then []
    else
      (if requests[0].key == key then [IndexOrderTheory.EngageNext(requests[0].id, requests[0].amount)] else [])
      + OpsAt(requests[1..], key)
  }

  function ApplyAll(o: Spec.Order, ops: seq<IndexOrderTheory.Op>, t: real): Spec.Order
    decreases |ops|
  {
    if ops == [] then o else ApplyAll(IndexOrderTheory.Apply(o, ops[0], t), ops[1..], t)
  }

  /** Every user's order only sees its own requests, in turn. */
  lemma {:induction false} EngageAllIsOps(
      orders: Orders, requests: seq<EngageRequest>, answers: Answers, t: real, key: Key)
    requires key in orders
    ensures var e := EngageAll(orders, requests, answers, t);
      && e.orders.Keys == orders.Keys
      && (e.ok ==> e.orders[key] == ApplyAll(orders[key], OpsAt(requests, key), t))
  {
    hide Spec.SolverEngageOne;
    if requests != [] && requests[0].key in orders {
      var r := requests[0];
      var one := Spec.SolverEngageOne(orders[r.key], r.id, r.amount, t);
      if one.EngagedOne? {
        var answer := Confirmation(r.amount - OrZero(one.unmatched), one.remaining);
        EngageAllIsOps(orders[r.key := one.order], requests[1..], answers[AnswerKeyOf(r) := answer], t, key);
        if r.key == key {
          var op := IndexOrderTheory.EngageNext(r.id, r.amount);
          assert OpsAt(requests, key) == [op] + OpsAt(requests[1..], key);
          assert ([op] + OpsAt(requests[1..], key))[1..] == OpsAt(requests[1..], key);
        } else {
          assert OpsAt(requests, key) == OpsAt(requests[1..], key);
        }
      }
    }
  }

  /** No request is about the update. */
  predicate NoneFor(requests: seq<EngageRequest>, key: Key, id: string) {
    forall r :: r in requests ==> !(r.key == key && r.id == id)
  }

  predicate NoneAnsweredAs(requests: seq<EngageRequest>, a: AnswerKey) {
    forall r :: r in requests ==> AnswerKeyOf(r) != a
  }

  /** Requests about other updates leave an update as it was, and its answer too. */
  lemma {:induction false} EngageAllElsewhere(
      orders: Orders, requests: seq<EngageRequest>, answers: Answers, t: real, key: Key, id: string)
    requires key in orders && NoneFor(requests, key, id)
    ensures var e := EngageAll(orders, requests, answers, t);
      && key in e.orders && SameMine(orders[key], e.orders[key], id)
      && (forall a :: a in answers && NoneAnsweredAs(requests, a) ==> a in e.answers && e.answers[a] == answers[a])
  {
    hide Spec.SolverEngageOne, SameMine;
    SameMineItself(orders[key], id);
    if requests != [] && requests[0].key in orders {
      var r := requests[0];
      var one := Spec.SolverEngageOne(orders[r.key], r.id, r.amount, t);
      if one.EngagedOne? {
        assert requests == [r] + requests[1..];
        var answers' := answers[AnswerKeyOf(r) := Confirmation(r.amount - OrZero(one.unmatched), one.remaining)];
        var orders' := orders[r.key := one.order];
        EngageAllElsewhere(orders', requests[1..], answers', t, key, id);
        if r.key == key {
          EngageElsewhere(orders[key], r.id, r.amount, t, id);
          SameMineTwice(orders[key], one.order, EngageAll(orders', requests[1..], answers', t).orders[key], id);
        }
        forall a | a in answers && NoneAnsweredAs(requests, a) ensures a in answers' && answers'[a] == answers[a] {
          assert r in requests;
        }
      }
    }
  }

  lemma SameMineItself(o: Spec.Order, id: string)
    ensures SameMine(o, o, id)
  {
  }

  lemma SameMineTwice(a: Spec.Order, b: Spec.Order, c: Spec.Order, id: string)
    requires SameMine(a, b, id) && SameMine(b, c, id)
    ensures SameMine(a, c, id)
  {
  }

  /** The state in which request i is served. */
  lemma {:induction false} EngageAllReaches(
      orders: Orders, requests: seq<EngageRequest>, i: nat, answers: Answers, t: real) returns (s: Engaged)
    requires i < |requests| && EngageAll(orders, requests, answers, t).ok
    ensures s == EngageAll(orders, requests[..i], answers, t) && s.ok
    ensures EngageAll(orders, requests, answers, t) == EngageAll(s.orders, requests[i..], s.answers, t)
    decreases i
  {
    hide Spec.SolverEngageOne;
    if i == 0 {
      s := Engaged(orders, answers, true);
      assert requests[0..] == requests;
    } else {
      var r := requests[0];
      var one := Spec.SolverEngageOne(orders[r.key], r.id, r.amount, t);
      var answer := Confirmation(r.amount - OrZero(one.unmatched), one.remaining);
      s := EngageAllReaches(orders[r.key := one.order], requests[1..], i - 1, answers[AnswerKeyOf(r) := answer], t);
      assert requests[..i][1..] == requests[1..][..i - 1] && requests[1..][i - 1..] == requests[i..];
    }
  }

  /** A batch of engagements that succeeds does to an update what engaging it alone does: the requests before and after
      are elsewhere. Its answer is the one for it, when no later request has the same address and ID. */
  lemma EngageAllIsEngageOne(orders: Orders, requests: seq<EngageRequest>, i: nat, t: real)
    returns (before: Spec.Order)
    requires i < |requests| && EngageAll(orders, requests, map[], t).ok
    requires NoneFor(requests[..i], requests[i].key, requests[i].id)
    requires NoneFor(requests[i + 1..], requests[i].key, requests[i].id)
    ensures var e := EngageAll(orders, requests, map[], t); var r := requests[i];
      && r.key in orders && r.key in e.orders && SameMine(orders[r.key], before, r.id)
      && var one := Spec.SolverEngageOne(before, r.id, r.amount, t);
         && one.EngagedOne? && SameMine(one.order, e.orders[r.key], r.id)
         && ((forall later :: later in requests[i + 1..] ==>
                !(later.key.address == r.key.address && later.id == r.id)) ==>
               && AnswerKey(r.key.address, r.id) in e.answers
               && e.answers[AnswerKey(r.key.address, r.id)]
                    == Confirmation(r.amount - OrZero(one.unmatched), one.remaining))
  {
    hide Spec.SolverEngageOne, SameMine, NoneFor;
    var r := requests[i];
    var s := EngageAllReaches(orders, requests, i, map[], t);
    var rest := requests[i..];
    assert rest[0] == r && rest[1..] == requests[i + 1..];
    assert r.key in s.orders;
    KeysStay(orders, requests[..i], map[], t);
    EngageAllElsewhere(orders, requests[..i], map[], t, r.key, r.id);
    before := s.orders[r.key];
    var one := Spec.SolverEngageOne(before, r.id, r.amount, t);
    var answers := s.answers[AnswerKeyOf(r) := Confirmation(r.amount - OrZero(one.unmatched), one.remaining)];
    EngageAllElsewhere(s.orders[r.key := one.order], requests[i + 1..], answers, t, r.key, r.id);
  }

  /** A batch of engagements that is answered mentions exactly the orders that were requested. */
  lemma {:induction false} AnswersMentionRequests(
      orders: Orders, requests: seq<EngageRequest>, answers: Answers, t: real)
    requires EngageAll(orders, requests, answers, t).ok
    ensures EngageAll(orders, requests, answers, t).answers.Keys ==
      answers.Keys + set r | r in requests :: AnswerKey(r.key.address, r.id)
  {
    hide Spec.SolverEngageOne;
    if requests != [] {
      var r := requests[0];
      var one := Spec.SolverEngageOne(orders[r.key], r.id, r.amount, t);
      var answer := Confirmation(r.amount - OrZero(one.unmatched), one.remaining);
      AnswersMentionRequests(orders[r.key := one.order], requests[1..], answers[AnswerKeyOf(r) := answer], t);
      assert requests == [r] + requests[1..];
    }
  }

  lemma {:induction false} KeysStay(orders: Orders, requests: seq<EngageRequest>, answers: Answers, t: real)
    ensures EngageAll(orders, requests, answers, t).orders.Keys == orders.Keys
  {
    hide Spec.SolverEngageOne;
    if requests != [] && requests[0].key in orders {
      var r := requests[0];
      var one := Spec.SolverEngageOne(orders[r.key], r.id, r.amount, t);
      if one.EngagedOne? {
        var answer := Confirmation(r.amount - OrZero(one.unmatched), one.remaining);
        KeysStay(orders[r.key := one.order], requests[1..], answers[AnswerKeyOf(r) := answer], t);
      }
    }
  }

  /** When another update of the same order is minted, this one is still there, as it was, exactly when some update is
      left in the queue; otherwise the order is gone and this update with it. */
  lemma OtherMintKeepsMine(orders: Orders, key: Key, other: string, id: string, u: Spec.Update)
    requires key in orders && other != id && Holds(orders[key], id, u)
    requires Spec.SolverComplete(orders[key], other).Some?
    ensures var after := AfterMint(orders, key, Spec.SolverComplete(orders[key], other).value);
      && (key in after <==> orders[key].updates != [])
      && (key in after && Holds(after[key], id, u) <==>
            Elsewhere(orders[key], IndexOrderTheory.Complete(other), id))
  {
    hide Spec.SolverComplete;
    var o := orders[key];
    CompleteKeepsQueue(o, other);
    if o.updates != [] {
      ElsewhereKeepsMine(o, IndexOrderTheory.Complete(other), id, 0.0);
    }
  }

  lemma CompleteKeepsQueue(o: Spec.Order, id: string)
    requires Spec.SolverComplete(o, id).Some?
    ensures Spec.SolverComplete(o, id).value.updates == o.updates
  {
  }
}
