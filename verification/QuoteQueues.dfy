/** Quote requests wait in a queue per client; a notify queue says whose front quote is due to be handed out. */
module QuoteQueues {
  import opened Common

  datatype Client = Client(chainId: nat, address: string)
  datatype Key = Key(client: Client, id: string)
  datatype Quote = Quote(symbol: string, side: Side, collateral: real, timestamp: int)

  datatype State = State(quotes: map<Key, Quote>, queues: map<Client, seq<string>>, notify: seq<Client>)

  const EMPTY := State(map[], map[], [])

  function Remove(q: seq<string>, id: string): seq<string> {
    if q == [] then [] else if q[0] == id then Remove(q[1..], id) else [q[0]] + Remove(q[1..], id)
  }

  /** None: the ID is taken. */
  function Add(s: State, k: Key, quote: Quote): Option<State> {
    if k in s.quotes then None
    else
      var quotes := s.quotes[k := quote];
      if k.client in s.queues then
        Some(s.(quotes := quotes, queues := s.queues[k.client := s.queues[k.client] + [k.id]]))
      else
        Some(State(quotes, s.queues[k.client := [k.id]], s.notify + [k.client]))
  }

  /** The quote that would be handed out, if its client's wait is over. */
  function Due(s: State, now: int, wait: int): Option<Key> {
    if s.notify == [] then None
    else
      var c := s.notify[0];
      if c !in s.queues || s.queues[c] == [] then None
      else
        var k := Key(c, s.queues[c][0]);
        if k !in s.quotes || now - wait < s.quotes[k].timestamp then None else Some(k)
  }

  function Next(s: State, now: int, wait: int): State {
    if Due(s, now, wait).None? then s else s.(notify := s.notify[1..])
  }

  /** None: there is no such quote. */
  function Cancel(s: State, k: Key): Option<State> {
    if k !in s.quotes then None
    else
      var s' := s.(quotes := s.quotes - {k});
      if k.client !in s.queues then Some(s')
      else
        var q := s.queues[k.client];
        if q == [] || q == [k.id] then Some(s'.(queues := s.queues - {k.client}))
        else if q[0] == k.id then
          Some(s'.(queues := s.queues[k.client := q[1..]], notify := s.notify + [k.client]))
        else Some(s'.(queues := s.queues[k.client := Remove(q, k.id)]))
  }

  class SolverClientQuotes {
    var clientQuotes: map<Key, Quote>
    var clientQuotesQueues: map<Client, seq<string>>
    var clientNotifyQueue: seq<Client>
    const clientWaitPeriod: int

    function Contents(): State
      reads this
    {
      State(clientQuotes, clientQuotesQueues, clientNotifyQueue)
    }

    constructor (wait: int)
      ensures Contents() == EMPTY && clientWaitPeriod == wait
    {
      clientQuotes, clientQuotesQueues, clientNotifyQueue := map[], map[], [];
      clientWaitPeriod := wait;
    }

    method GetNextClientQuote(now: int) returns (next: Option<Key>)
      modifies this
      ensures next == Due(old(Contents()), now, clientWaitPeriod)
      ensures Contents() == Next(old(Contents()), now, clientWaitPeriod)
    {
      next := None;
      if clientNotifyQueue != [] {
        var front := clientNotifyQueue[0];
        if front in clientQuotesQueues && clientQuotesQueues[front] != [] {
          var k := Key(front, clientQuotesQueues[front][0]);
          if k in clientQuotes && clientQuotes[k].timestamp <= now - clientWaitPeriod {
            clientNotifyQueue := clientNotifyQueue[1..];
            next := Some(k);
          }
        }
      }
    }

    method AddClientQuote(k: Key, quote: Quote) returns (ok: bool)
      modifies this
      ensures var s := Add(old(Contents()), k, quote);
        ok == s.Some? && Contents() == if ok then s.value else old(Contents())
    {
      if k in clientQuotes {
        return false;
      }
      clientQuotes := clientQuotes[k := quote];
      var notify := k.client !in clientQuotesQueues;
      if notify {
        clientQuotesQueues := clientQuotesQueues[k.client := [k.id]];
      } else {
        clientQuotesQueues := clientQuotesQueues[k.client := clientQuotesQueues[k.client] + [k.id]];
      }
      if notify {
        clientNotifyQueue := clientNotifyQueue + [k.client];
      }
      ok := true;
    }

    method CancelClientQuote(k: Key) returns (ok: bool)
      modifies this
      ensures var s := Cancel(old(Contents()), k);
        ok == s.Some? && Contents() == if ok then s.value else old(Contents())
    {
      if k !in clientQuotes {
        return false;
      }
      clientQuotes := clientQuotes - {k};
      var notify := false;
      if k.client in clientQuotesQueues {
        var queue := clientQuotesQueues[k.client];
        if queue == [] {
          clientQuotesQueues := clientQuotesQueues - {k.client};
        } else if queue[0] == k.id {
          queue := queue[1..];
          if queue == [] {
            clientQuotesQueues := clientQuotesQueues - {k.client};
          } else {
            clientQuotesQueues := clientQuotesQueues[k.client := queue];
            notify := true;
          }
        } else {
          clientQuotesQueues := clientQuotesQueues[k.client := Remove(queue, k.id)];
        }
      }
      if notify {
        clientNotifyQueue := clientNotifyQueue + [k.client];
      }
      ok := true;
    }
  }

  // Runs

  datatype Op = AddQuote(key: Key, quote: Quote) | NextQuote(now: int) | CancelQuote(key: Key)

  /** The queues together with the history: which quotes arrived and which were handed out. */
  datatype History = History(s: State, arrived: seq<Key>, handed: seq<Key>)

  function Apply(h: History, op: Op, wait: int): History {
    match op
    case AddQuote(k, quote) =>
      var s := Add(h.s, k, quote);
      if s.None? then h else History(s.value, h.arrived + [k], h.handed)
    case NextQuote(now) =>
      var k := Due(h.s, now, wait);
      if k.None? then h else History(Next(h.s, now, wait), h.arrived, h.handed + [k.value])
    case CancelQuote(k) =>
      var s := Cancel(h.s, k);
      if s.None? then h else h.(s := s.value)
  }

  function Run(ops: seq<Op>, wait: int): History {
    if ops == [] then History(EMPTY, [], []) else Apply(Run(ops[..|ops| - 1], wait), ops[|ops| - 1], wait)
  }

  ghost predicate Distinct<T>(xs: seq<T>) {
    forall i, j :: 0 <= i < j < |xs| ==> xs[i] != xs[j]
  }

  /** The quote map and the queues hold the same IDs, without repeats and without empty queues. */
  ghost predicate Consistent(s: State) {
    && (forall k :: k in s.quotes <==> k.client in s.queues && k.id in s.queues[k.client])
    && (forall c :: c in s.queues ==> s.queues[c] != [] && Distinct(s.queues[c]))
  }

  lemma {:induction false} RemoveMeaning(q: seq<string>, id: string)
    requires Distinct(q)
    ensures Distinct(Remove(q, id))
    ensures forall x :: x in Remove(q, id) <==> x in q && x != id
  {
    if q != [] {
      assert forall j :: 0 <= j < |q[1..]| ==> q[1..][j] == q[j + 1];
      RemoveMeaning(q[1..], id);
      var rest := Remove(q[1..], id);
      forall j | 0 <= j < |rest| ensures rest[j] != q[0] {
        assert rest[j] in q[1..];
      }
    }
  }

  lemma StepConsistent(h: History, op: Op, wait: int)
    requires Consistent(h.s)
    ensures Consistent(Apply(h, op, wait).s)
  {
    match op
    case AddQuote(k, quote) => if Add(h.s, k, quote).Some? { AddConsistent(h.s, k, quote); }
    case NextQuote(now) =>
    case CancelQuote(k) => if Cancel(h.s, k).Some? { CancelConsistent(h.s, k); }
  }

  lemma AddConsistent(s: State, k: Key, quote: Quote)
    requires Consistent(s) && Add(s, k, quote).Some?
    ensures Consistent(Add(s, k, quote).value)
  {
    var s' := Add(s, k, quote).value;
    var queue := s'.queues[k.client];
    assert queue[|queue| - 1] == k.id;
    if k.client in s.queues {
      assert forall x :: x in queue <==> x in s.queues[k.client] || x == k.id;
    }
  }

  lemma CancelConsistent(s: State, k: Key)
    requires Consistent(s) && Cancel(s, k).Some?
    ensures Consistent(Cancel(s, k).value)
  {
    RemoveMeaning(s.queues[k.client], k.id);
  }

  /** After any run the map and the queues agree. */
  lemma {:induction false} RunsAreConsistent(ops: seq<Op>, wait: int)
    ensures Consistent(Run(ops, wait).s)
  {
    if ops != [] {
      RunsAreConsistent(ops[..|ops| - 1], wait);
      StepConsistent(Run(ops[..|ops| - 1], wait), ops[|ops| - 1], wait);
    }
  }

  /** Every client waits in the notify queue at most once, and none waits there without a quote. */
  ghost predicate Healthy(s: State) {
    Distinct(s.notify) && forall c :: c in s.notify ==> c in s.queues
  }

  /** Cancelling a client's front quote before it was handed out. */
  predicate Premature(s: State, op: Op) {
    op.CancelQuote? && op.key in s.quotes && op.key.client in s.notify
    && op.key.client in s.queues && s.queues[op.key.client] != [] && s.queues[op.key.client][0] == op.key.id
  }

  /** The notify queue stays healthy exactly while no front quote is cancelled before it was handed out. */
  lemma StepHealthy(h: History, op: Op, wait: int)
    requires Consistent(h.s) && Healthy(h.s)
    ensures Healthy(Apply(h, op, wait).s) <==> !Premature(h.s, op)
  {
    match op
    case AddQuote(k, quote) =>
    case NextQuote(now) =>
    case CancelQuote(k) =>
      if k in h.s.quotes {
        CancelHealthy(h.s, k);
      }
  }

  lemma CancelHealthy(s: State, k: Key)
    requires Consistent(s) && Healthy(s) && k in s.quotes
    ensures Healthy(Cancel(s, k).value) <==> !Premature(s, CancelQuote(k))
  {
    var s' := Cancel(s, k).value;
    if Premature(s, CancelQuote(k)) {
      var i :| 0 <= i < |s.notify| && s.notify[i] == k.client;
      if |s.queues[k.client]| > 1 {
        assert s'.notify[i] == s'.notify[|s.notify|];
      } else {
        assert s.queues[k.client] == [k.id];
        assert k.client in s'.notify && k.client !in s'.queues;
      }
    }
  }

  // Each quote is handed out at most once, in arrival order per client

  function Of(keys: seq<Key>, c: Client): seq<string> {
    if keys == [] then []
    else
      var last := keys[|keys| - 1];
      Of(keys[..|keys| - 1], c) + if last.client == c then [last.id] else []
  }

  /** The quotes of a client that were not handed out yet. */
  function Pending(s: State, c: Client): seq<string> {
    if c !in s.queues || s.queues[c] == [] then []
    else if c in s.notify then s.queues[c]
    else s.queues[c][1..]
  }

  /** xs is left of ys when some of its elements are dropped. */
  predicate Within(xs: seq<string>, ys: seq<string>) {
    xs == [] || (ys != [] &&
      if xs[|xs| - 1] == ys[|ys| - 1] then Within(xs[..|xs| - 1], ys[..|ys| - 1])
      else Within(xs, ys[..|ys| - 1]))
  }

  ghost predicate InOrder(h: History, c: Client) {
    Within(Of(h.handed, c) + Pending(h.s, c), Of(h.arrived, c))
  }

  /** A client that waits for nobody had its front quote handed out. */
  ghost predicate NoneForgotten(h: History) {
    forall c :: c in h.s.queues && c !in h.s.notify ==> h.s.queues[c] != [] && Key(c, h.s.queues[c][0]) in h.handed
  }

  lemma WithinSnoc(xs: seq<string>, ys: seq<string>, z: string)
    requires Within(xs, ys)
    ensures Within(xs + [z], ys + [z])
  {
    assert (xs + [z])[..|xs|] == xs && (ys + [z])[..|ys|] == ys;
  }

  lemma WithinSplits(xs: seq<string>, ys: seq<string>)
    requires xs != [] && Within(xs, ys)
    ensures ys != []
    ensures var n, m := |xs| - 1, |ys| - 1;
      if xs[n] == ys[m] then Within(xs[..n], ys[..m]) else Within(xs, ys[..m])
  {
  }

  lemma {:induction false} WithinDrop(xs: seq<string>, i: nat, ys: seq<string>)
    requires i < |xs| && Within(xs, ys)
    ensures Within(xs[..i] + xs[i + 1..], ys)
    decreases |ys|
  {
    hide Within;
    WithinSplits(xs, ys);
    var n, m := |xs| - 1, |ys| - 1;
    if xs[n] != ys[m] {
      WithinDrop(xs, i, ys[..m]);
      WithinLonger(xs[..i] + xs[i + 1..], ys);
    } else if i == n {
      WithinLonger(xs[..n], ys);
      assert xs[..i] + xs[i + 1..] == xs[..n];
    } else {
      var less := xs[..n][..i] + xs[..n][i + 1..];
      WithinDrop(xs[..n], i, ys[..m]);
      WithinSnoc(less, ys[..m], xs[n]);
      assert xs[..i] + xs[i + 1..] == less + [xs[n]];
      assert ys == ys[..m] + [ys[m]];
    }
  }

  /** A longer list still has what its front has. */
  lemma {:induction false} WithinLonger(xs: seq<string>, ys: seq<string>)
    requires ys != [] && Within(xs, ys[..|ys| - 1])
    ensures Within(xs, ys)
    decreases |ys|, 0
  {
    if xs != [] && xs[|xs| - 1] == ys[|ys| - 1] {
      var front := ys[..|ys| - 1];
      if xs[|xs| - 1] == front[|front| - 1] {
        WithinLonger(xs[..|xs| - 1], front);
      } else {
        WithinPrefix(xs, front[..|front| - 1]);
        WithinLonger(xs[..|xs| - 1], front);
      }
    }
  }

  lemma {:induction false} WithinPrefix(xs: seq<string>, ys: seq<string>)
    requires xs != [] && Within(xs, ys)
    ensures Within(xs[..|xs| - 1], ys)
    decreases |ys|, 1
  {
    if xs[|xs| - 1] == ys[|ys| - 1] {
      WithinLonger(xs[..|xs| - 1], ys);
    } else {
      WithinPrefix(xs, ys[..|ys| - 1]);
      WithinLonger(xs[..|xs| - 1], ys);
    }
  }

  lemma {:induction false} WithinRemove(xs: seq<string>, id: string, ys: seq<string>, done: seq<string>)
    requires Within(done + xs, ys)
    ensures Within(done + Remove(xs, id), ys)
    decreases |xs|
  {
    hide Within;
    if xs == [] {
      assert Remove(xs, id) == xs;
    } else if xs[0] == id {
      WithinDrop(done + xs, |done|, ys);
      assert (done + xs)[..|done|] + (done + xs)[|done| + 1..] == done + xs[1..];
      WithinRemove(xs[1..], id, ys, done);
    } else {
      assert done + xs == (done + [xs[0]]) + xs[1..];
      WithinRemove(xs[1..], id, ys, done + [xs[0]]);
      assert done + Remove(xs, id) == (done + [xs[0]]) + Remove(xs[1..], id);
    }
  }

  lemma StepInOrder(h: History, op: Op, wait: int, c: Client)
    requires Consistent(h.s) && Healthy(h.s) && !Premature(h.s, op) && InOrder(h, c)
    ensures InOrder(Apply(h, op, wait), c)
  {
    match op
    case AddQuote(k, quote) => if Add(h.s, k, quote).Some? { AddInOrder(h, k, quote, c); }
    case NextQuote(now) => if Due(h.s, now, wait).Some? { NextInOrder(h, now, wait, c); }
    case CancelQuote(k) => if Cancel(h.s, k).Some? { CancelInOrder(h, k, c); }
  }

  lemma AddInOrder(h: History, k: Key, quote: Quote, c: Client)
    requires Consistent(h.s) && Healthy(h.s) && InOrder(h, c) && Add(h.s, k, quote).Some?
    ensures InOrder(History(Add(h.s, k, quote).value, h.arrived + [k], h.handed), c)
  {
    if c == k.client {
      AddOwnInOrder(h, k, quote);
    } else {
      AddOtherInOrder(h, k, quote, c);
    }
  }

  lemma AddOwnInOrder(h: History, k: Key, quote: Quote)
    requires Consistent(h.s) && InOrder(h, k.client) && Add(h.s, k, quote).Some?
    ensures InOrder(History(Add(h.s, k, quote).value, h.arrived + [k], h.handed), k.client)
  {
    hide Within, Pending, Of, Consistent;
    var s', c := Add(h.s, k, quote).value, k.client;
    var x, y := Of(h.handed, c) + Pending(h.s, c), Of(h.arrived, c);
    PendingAdded(h.s, k, quote);
    OfLonger(h.arrived, k, c);
    WithinSnoc(x, y, k.id);
    assert Of(h.handed, c) + Pending(s', c) == x + [k.id];
  }

  lemma OfLonger(keys: seq<Key>, k: Key, c: Client)
    ensures Of(keys + [k], c) == if k.client == c then Of(keys, c) + [k.id] else Of(keys, c)
  {
    assert (keys + [k])[..|keys|] == keys;
  }

  lemma PendingAdded(s: State, k: Key, quote: Quote)
    requires Consistent(s) && Add(s, k, quote).Some?
    ensures Pending(Add(s, k, quote).value, k.client) == Pending(s, k.client) + [k.id]
  {
  }

  lemma AddOtherInOrder(h: History, k: Key, quote: Quote, c: Client)
    requires c != k.client && InOrder(h, c) && Add(h.s, k, quote).Some?
    ensures InOrder(History(Add(h.s, k, quote).value, h.arrived + [k], h.handed), c)
  {
    hide Within, Of;
    var s' := Add(h.s, k, quote).value;
    OfLonger(h.arrived, k, c);
    assert c in s'.notify <==> c in h.s.notify;
    assert Pending(s', c) == Pending(h.s, c);
  }

  lemma NextInOrder(h: History, now: int, wait: int, c: Client)
    requires Consistent(h.s) && Healthy(h.s) && InOrder(h, c) && Due(h.s, now, wait).Some?
    ensures InOrder(History(Next(h.s, now, wait), h.arrived, h.handed + [Due(h.s, now, wait).value]), c)
  {
    hide Within, Of;
    var k := Due(h.s, now, wait).value;
    var s' := Next(h.s, now, wait);
    OfLonger(h.handed, k, c);
    assert h.s.notify == [k.client] + s'.notify;
    if c == k.client {
      var q := h.s.queues[c];
      assert c !in s'.notify;
      assert Of(h.handed, c) + q == (Of(h.handed, c) + [q[0]]) + q[1..];
    } else {
      assert Pending(s', c) == Pending(h.s, c);
    }
  }

  lemma CancelInOrder(h: History, k: Key, c: Client)
    requires Consistent(h.s) && Healthy(h.s) && InOrder(h, c)
    requires Cancel(h.s, k).Some? && !Premature(h.s, CancelQuote(k))
    ensures InOrder(h.(s := Cancel(h.s, k).value), c)
  {
    if c == k.client && h.s.queues[c][0] != k.id {
      CancelLaterInOrder(h, k);
    } else {
      hide Within;
      assert Pending(Cancel(h.s, k).value, c) == Pending(h.s, c);
    }
  }

  /** A quote behind the front one is cancelled. */
  lemma CancelLaterInOrder(h: History, k: Key)
    requires Consistent(h.s) && Healthy(h.s) && InOrder(h, k.client)
    requires Cancel(h.s, k).Some? && h.s.queues[k.client][0] != k.id
    ensures InOrder(h.(s := Cancel(h.s, k).value), k.client)
  {
    hide Within;
    var c, q := k.client, h.s.queues[k.client];
    assert Remove(q, k.id) == [q[0]] + Remove(q[1..], k.id);
    if c in h.s.notify {
      WithinRemove(q, k.id, Of(h.arrived, c), Of(h.handed, c));
    } else {
      WithinRemove(q[1..], k.id, Of(h.arrived, c), Of(h.handed, c));
    }
  }

  lemma StepNoneForgotten(h: History, op: Op, wait: int)
    requires Consistent(h.s) && Healthy(h.s) && NoneForgotten(h)
    ensures NoneForgotten(Apply(h, op, wait))
  {
    match op
    case AddQuote(k, quote) =>
    case NextQuote(now) =>
      if Due(h.s, now, wait).Some? {
        assert h.s.notify == [h.s.notify[0]] + h.s.notify[1..];
      }
    case CancelQuote(k) =>
      if k in h.s.quotes {
        var q := h.s.queues[k.client];
        if q[0] != k.id {
          assert Remove(q, k.id) == [q[0]] + Remove(q[1..], k.id);
        }
      }
  }

  ghost predicate NeverPremature(ops: seq<Op>, wait: int) {
    ops != [] ==>
      NeverPremature(ops[..|ops| - 1], wait) && !Premature(Run(ops[..|ops| - 1], wait).s, ops[|ops| - 1])
  }

  /** While no front quote is cancelled before it was handed out, every client waits at most once, its handed-out and
      pending quotes are its arrivals in order less some cancelled ones, and no waiting quote is forgotten. */
  lemma {:induction false} RunsHandOutInOrder(ops: seq<Op>, wait: int, c: Client)
    requires NeverPremature(ops, wait)
    ensures var h := Run(ops, wait);
      Healthy(h.s) && InOrder(h, c) && NoneForgotten(h)
  {
    if ops != [] {
      var h, op := Run(ops[..|ops| - 1], wait), ops[|ops| - 1];
      RunsHandOutInOrder(ops[..|ops| - 1], wait, c);
      RunsAreConsistent(ops[..|ops| - 1], wait);
      StepHealthy(h, op, wait);
      StepInOrder(h, op, wait, c);
      StepNoneForgotten(h, op, wait);
    }
  }

  lemma {:induction false} WithinDistinct(xs: seq<string>, ys: seq<string>)
    requires Within(xs, ys) && Distinct(ys)
    ensures Distinct(xs) && forall x :: x in xs ==> x in ys
  {
    if xs != [] {
      if xs[|xs| - 1] == ys[|ys| - 1] {
        WithinDistinct(xs[..|xs| - 1], ys[..|ys| - 1]);
        assert xs == xs[..|xs| - 1] + [xs[|xs| - 1]];
        forall i | 0 <= i < |xs| - 1 ensures xs[i] != xs[|xs| - 1] {
          assert xs[i] in ys[..|ys| - 1];
        }
      } else {
        WithinDistinct(xs, ys[..|ys| - 1]);
      }
    }
  }

  /** With fresh IDs, no quote of a client is handed out twice and no handed-out quote is pending again. */
  lemma HandedOutOnce(ops: seq<Op>, wait: int, c: Client)
    requires NeverPremature(ops, wait) && Distinct(Of(Run(ops, wait).arrived, c))
    ensures Distinct(Of(Run(ops, wait).handed, c) + Pending(Run(ops, wait).s, c))
  {
    var h := Run(ops, wait);
    RunsHandOutInOrder(ops, wait, c);
    WithinDistinct(Of(h.handed, c) + Pending(h.s, c), Of(h.arrived, c));
  }

  /** Clients take turns: a client joins the end of the notify queue with the first of its quotes, or when its front
      quote was cancelled before others, and the front client leaves it when its quote is handed out. */
  lemma ClientsTakeTurns(h: History, op: Op, wait: int)
    ensures var s, s' := h.s, Apply(h, op, wait).s;
      match op
      case AddQuote(k, quote) =>
        var joins := k !in s.quotes && k.client !in s.queues;
        s'.notify == if joins then s.notify + [k.client] else s.notify
      case NextQuote(now) =>
        var handed := |Apply(h, op, wait).handed| > |h.handed|;
        (handed ==> s.notify != []) && s'.notify == if handed then s.notify[1..] else s.notify
      case CancelQuote(k) =>
        var more := k in s.quotes && k.client in s.queues && |s.queues[k.client]| > 1 && s.queues[k.client][0] == k.id;
        s'.notify == if more then s.notify + [k.client] else s.notify
  {
  }

  /** A quote is kept as it was added. */
  lemma {:induction false} QuotesAreAsAdded(ops: seq<Op>, wait: int, k: Key)
    requires k in Run(ops, wait).s.quotes
    ensures AddQuote(k, Run(ops, wait).s.quotes[k]) in ops
  {
    var before, op := ops[..|ops| - 1], ops[|ops| - 1];
    var h := Run(before, wait);
    if k in h.s.quotes {
      QuotesAreAsAdded(before, wait, k);
    }
    assert op in ops && forall x :: x in before ==> x in ops;
  }

  /** While no front quote is cancelled early, exactly the front quote of the front client is handed out, and only once
      it has waited; it is the quote that was added under its ID. */
  lemma HandsOutWaited(ops: seq<Op>, now: int, wait: int)
    requires NeverPremature(ops, wait)
    ensures var h, h' := Run(ops, wait), Run(ops + [NextQuote(now)], wait); var s := h.s;
      && (s.notify == [] ==> h' == h)
      && (s.notify != [] ==>
            var c := s.notify[0];
            && c in s.queues && s.queues[c] != []
            && var k := Key(c, s.queues[c][0]);
               && k in s.quotes && AddQuote(k, s.quotes[k]) in ops
               && h'.handed == (if s.quotes[k].timestamp <= now - wait then h.handed + [k] else h.handed)
               && h'.arrived == h.arrived && h'.s.quotes == s.quotes && h'.s.queues == s.queues)
  {
    hide Healthy, Consistent, InOrder, NoneForgotten, NeverPremature;
    RunsAreConsistent(ops, wait);
    var s := Run(ops, wait).s;
    if s.notify != [] {
      RunsHandOutInOrder(ops, wait, s.notify[0]);
      FrontHasQuote(s);
      QuotesAreAsAdded(ops, wait, Key(s.notify[0], s.queues[s.notify[0]][0]));
    }
    assert (ops + [NextQuote(now)])[..|ops|] == ops;
  }

  lemma FrontHasQuote(s: State)
    requires Consistent(s) && Healthy(s) && s.notify != []
    ensures var c := s.notify[0];
      c in s.queues && s.queues[c] != [] && Key(c, s.queues[c][0]) in s.quotes
  {
    var c := s.notify[0];
    assert c in s.notify;
    assert s.queues[c][0] in s.queues[c];
  }

  function OneQuote(c: Client, quote: Quote): State {
    State(map[Key(c, "A") := quote], map[c := ["A"]], [c])
  }

  function TwoQuotes(c: Client, quote: Quote): State {
    State(map[Key(c, "A") := quote, Key(c, "B") := quote], map[c := ["A", "B"]], [c])
  }

  lemma FirstAdded(c: Client, quote: Quote)
    ensures Add(EMPTY, Key(c, "A"), quote) == Some(OneQuote(c, quote))
  {
    assert [] + [c] == [c];
  }

  lemma SecondAdded(c: Client, quote: Quote)
    ensures Add(OneQuote(c, quote), Key(c, "B"), quote) == Some(TwoQuotes(c, quote))
  {
    assert ["A"] + ["B"] == ["A", "B"];
    assert map[c := ["A"]][c := ["A", "B"]] == map[c := ["A", "B"]];
  }

  lemma FrontCancelled(c: Client, quote: Quote)
    ensures Cancel(TwoQuotes(c, quote), Key(c, "A"))
         == Some(State(map[Key(c, "B") := quote], map[c := ["B"]], [c, c]))
  {
    var s := TwoQuotes(c, quote);
    assert ["A", "B"][1..] == ["B"] && [c] + [c] == [c, c];
    assert s.quotes - {Key(c, "A")} == map[Key(c, "B") := quote];
    assert s.queues[c := ["B"]] == map[c := ["B"]];
  }

  /** Two quotes of a client arrive and the first is cancelled: the client waits twice. */
  lemma CancelledEarly(c: Client, quote: Quote)
    ensures var ops := [AddQuote(Key(c, "A"), quote), AddQuote(Key(c, "B"), quote), CancelQuote(Key(c, "A"))];
      var h := Run(ops, 0);
      && h.s == State(map[Key(c, "B") := quote], map[c := ["B"]], [c, c]) && h.handed == []
  {
    hide Add, Cancel, OneQuote, TwoQuotes;
    var ops := [AddQuote(Key(c, "A"), quote), AddQuote(Key(c, "B"), quote), CancelQuote(Key(c, "A"))];
    assert ops[..1][..0] == [] && ops[..2][..1] == ops[..1];
    FirstAdded(c, quote);
    assert Run(ops[..1], 0).s == OneQuote(c, quote);
    SecondAdded(c, quote);
    assert Run(ops[..2], 0).s == TwoQuotes(c, quote);
    FrontCancelled(c, quote);
  }

  /** A front quote cancelled too early makes the next quote of its client go out twice. */
  lemma PrematureCancelHandsOutTwice(c: Client, quote: Quote)
    ensures var ops := [AddQuote(Key(c, "A"), quote), AddQuote(Key(c, "B"), quote), CancelQuote(Key(c, "A")),
                        NextQuote(quote.timestamp), NextQuote(quote.timestamp)];
      Run(ops, 0).handed == [Key(c, "B"), Key(c, "B")]
  {
    var now := quote.timestamp;
    var ops := [AddQuote(Key(c, "A"), quote), AddQuote(Key(c, "B"), quote), CancelQuote(Key(c, "A")), NextQuote(now),
                NextQuote(now)];
    CancelledEarly(c, quote);
    var h3 := Run(ops[..3], 0);
    assert ops[..3] == [AddQuote(Key(c, "A"), quote), AddQuote(Key(c, "B"), quote), CancelQuote(Key(c, "A"))];
    assert ops[..4][..3] == ops[..3];
    assert Run(ops[..4], 0) == Apply(h3, NextQuote(now), 0);
  }
}
