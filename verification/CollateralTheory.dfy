/** What every run of a collateral side keeps. */
module CollateralTheory {
  import opened Common
  import opened CollateralSpec

  // Runs

  datatype Op =
    | Deposit(paymentId: string, seqNum: Option<nat>, amount: real)
    | MakeReady(amount: real)
    | Authorize(clientOrderId: string, paymentId: string, amount: real)
    | Pay(paymentId: string, amount: real)

  /** The state an operation leaves behind, whether or not it succeeds. */
  function Apply(s: SideState, op: Op, t: real): SideState {
    match op
    case Deposit(p, n, a) => OpenLot(s, p, n, a)
    case MakeReady(a) => AddReady(s, a, t).side
    case Authorize(c, p, a) => Preauth(s, c, p, a, t).side
    case Pay(p, a) => Confirm(s, p, a, t).side
  }

  predicate Succeeds(s: SideState, op: Op, t: real) {
    match op
    case Deposit(_, _, _) => true
    case MakeReady(a) => AddReady(s, a, t).status.Some?
    case Authorize(c, p, a) => Preauth(s, c, p, a, t).status.Some?
    case Pay(p, a) => Confirm(s, p, a, t).status.Some?
  }

  /** A run in which failing calls keep whatever they changed. */
  function Run(ops: seq<Op>, t: real): SideState {
    if ops == [] then EMPTY_SIDE else Apply(Run(ops[..|ops| - 1], t), ops[|ops| - 1], t)
  }

  /** A run in which a failing call is rolled back. */
  function SafeRun(ops: seq<Op>, t: real): SideState {
    if ops == [] then EMPTY_SIDE else
      var s := SafeRun(ops[..|ops| - 1], t);
      if Succeeds(s, ops[|ops| - 1], t) then Apply(s, ops[|ops| - 1], t) else s
  }

  // The boundary scan

  lemma {:induction false} ScanMeaning(lots: seq<Lot>, key: Lot -> real, amount: real, t: real)
    ensures var sc := Scan(lots, key, amount, t);
      && sc.amount == amount - SumBy(lots[..sc.pos], key)
      && (0 < sc.pos ==> -t < sc.amount)
      && (sc.done ==> sc.amount - key(lots[sc.pos]) <= -t)
  {
    if lots != [] && -t < amount - key(lots[0]) {
      ScanMeaning(lots[1..], key, amount - key(lots[0]), t);
      var sc := Scan(lots, key, amount, t);
      assert lots[..sc.pos][1..] == lots[1..][..sc.pos - 1];
    }
  }

  /** What no lot covered. */
  function Uncovered(sc: Scanned): real {
    if sc.done then 0.0 else sc.amount
  }

  lemma UncoveredBounds(lots: seq<Lot>, key: Lot -> real, amount: real, t: real)
    requires 0.0 <= t && 0.0 <= amount
    ensures var sc := Scan(lots, key, amount, t);
      -t <= Uncovered(sc) && (!sc.done ==> Uncovered(sc) == amount - SumBy(lots, key))
  {
    ScanMeaning(lots, key, amount, t);
    assert lots[..|lots|] == lots;
  }

  /** The four amounts of a lot, a list of lots, or a side. */
  datatype Amounts = Amounts(unconfirmed: real, ready: real, preauth: real, spent: real) {
    function Plus(a: Amounts): Amounts {
      Amounts(unconfirmed + a.unconfirmed, ready + a.ready, preauth + a.preauth, spent + a.spent)
    }

    function Minus(a: Amounts): Amounts {
      Amounts(unconfirmed - a.unconfirmed, ready - a.ready, preauth - a.preauth, spent - a.spent)
    }

    function Times(x: real): Amounts {
      Amounts(unconfirmed * x, ready * x, preauth * x, spent * x)
    }
  }

  function AmountsOf(lot: Lot): Amounts {
    Amounts(lot.unconfirmed, lot.ready, lot.preauth, lot.spent)
  }

  function LotAmounts(lots: seq<Lot>): Amounts {
    if lots == [] then Amounts(0.0, 0.0, 0.0, 0.0) else AmountsOf(lots[0]).Plus(LotAmounts(lots[1..]))
  }

  lemma {:induction false} LotAmountsAppend(xs: seq<Lot>, ys: seq<Lot>)
    ensures LotAmounts(xs + ys) == LotAmounts(xs).Plus(LotAmounts(ys))
  {
    if xs == [] {
      assert xs + ys == ys;
    } else {
      assert (xs + ys)[1..] == xs[1..] + ys;
      LotAmountsAppend(xs[1..], ys);
    }
  }

  lemma {:induction false} LotAmountsRemove(xs: seq<Lot>, i: nat)
    requires i < |xs|
    ensures LotAmounts(xs) == AmountsOf(xs[i]).Plus(LotAmounts(xs[..i] + xs[i + 1..]))
  {
    LotAmountsAppend(xs[..i], xs[i..]);
    LotAmountsAppend(xs[..i], xs[i + 1..]);
    assert xs == xs[..i] + xs[i..];
    assert xs[i..][1..] == xs[i + 1..];
  }

  lemma {:induction false} LotAmountsPermutation(xs: seq<Lot>, ys: seq<Lot>)
    requires multiset(xs) == multiset(ys)
    ensures LotAmounts(xs) == LotAmounts(ys)
  {
    if xs == [] {
      assert |ys| == |multiset(ys)| == |multiset(xs)|;
    } else {
      assert xs[0] in multiset(ys);
      var i :| 0 <= i < |ys| && ys[i] == xs[0];
      assert xs == [xs[0]] + xs[1..];
      MultisetRemove(ys, i);
      assert multiset(xs[1..]) == multiset(xs) - multiset{xs[0]};
      LotAmountsPermutation(xs[1..], ys[..i] + ys[i + 1..]);
      LotAmountsRemove(ys, i);
    }
  }

  /** Moves along `d` shift each lot's amounts by `d` for each unit moved. */
  ghost predicate MovesAlong(full: Lot -> Lot, part: (Lot, real) -> Lot, key: Lot -> real, d: Amounts) {
    && (forall l :: AmountsOf(full(l)) == AmountsOf(l).Plus(d.Times(key(l))))
    && (forall l, a :: AmountsOf(part(l, a)) == AmountsOf(l).Plus(d.Times(a)))
  }

  lemma FirstMoved(lots: seq<Lot>, sc: Scanned, full: Lot -> Lot, part: (Lot, real) -> Lot)
    requires lots != [] && sc.pos <= |lots|
    ensures sc.pos == 0 && sc.done ==> Moved(lots, sc, full, part) == [part(lots[0], sc.amount)] + lots[1..]
    ensures sc.pos > 0 ==>
      Moved(lots, sc, full, part) == [full(lots[0])] + Moved(lots[1..], sc.(pos := sc.pos - 1), full, part)
  {
  }

  lemma LotAmountsFirst(lot: Lot, lots: seq<Lot>)
    ensures LotAmounts([lot] + lots) == AmountsOf(lot).Plus(LotAmounts(lots))
  {
    assert ([lot] + lots)[1..] == lots;
  }

  lemma MoveOne(full: Lot -> Lot, part: (Lot, real) -> Lot, key: Lot -> real, d: Amounts, lot: Lot, a: real)
    requires MovesAlong(full, part, key, d)
    ensures AmountsOf(full(lot)) == AmountsOf(lot).Plus(d.Times(key(lot)))
    ensures AmountsOf(part(lot, a)) == AmountsOf(lot).Plus(d.Times(a))
  {
  }

  /** The lots together shift by exactly what was asked, less what no lot covered. */
  lemma {:induction false} MovedAmounts(
      lots: seq<Lot>, full: Lot -> Lot, part: (Lot, real) -> Lot, key: Lot -> real, d: Amounts, amount: real, t: real)
    requires MovesAlong(full, part, key, d)
    ensures var sc := Scan(lots, key, amount, t);
      LotAmounts(Moved(lots, sc, full, part)) == LotAmounts(lots).Plus(d.Times(amount - Uncovered(sc)))
  {
    hide MovesAlong, AmountsOf, Moved;
    var sc := Scan(lots, key, amount, t);
    if lots == [] {
      NothingMoved(sc, full, part);
      NoTimes(LotAmounts(lots), d, amount - Uncovered(sc));
    } else {
      var lot, rest := lots[0], amount - key(lots[0]);
      FirstMoved(lots, sc, full, part);
      MoveOne(full, part, key, d, lot, amount);
      if -t < rest {
        MovedAmounts(lots[1..], full, part, key, d, rest, t);
        LotAmountsFirst(full(lot), Moved(lots[1..], sc.(pos := sc.pos - 1), full, part));
        assert sc == Scan(lots[1..], key, rest, t).(pos := sc.pos);
        Combine(AmountsOf(lot), LotAmounts(lots[1..]), d, key(lot), rest - Uncovered(sc));
      } else {
        LotAmountsFirst(part(lot, amount), lots[1..]);
        Swap(AmountsOf(lot), LotAmounts(lots[1..]), d.Times(amount));
      }
    }
  }

  lemma NothingMoved(sc: Scanned, full: Lot -> Lot, part: (Lot, real) -> Lot)
    ensures Moved([], sc, full, part) == []
  {
  }

  lemma NoTimes(a: Amounts, d: Amounts, x: real)
    requires x == 0.0
    ensures a.Plus(d.Times(x)) == a
  {
  }

  lemma Combine(a: Amounts, b: Amounts, d: Amounts, x: real, y: real)
    ensures a.Plus(d.Times(x)).Plus(b.Plus(d.Times(y))) == a.Plus(b).Plus(d.Times(x + y))
  {
    TimesAdds(d, x, y);
  }

  lemma Swap(a: Amounts, b: Amounts, c: Amounts)
    ensures a.Plus(c).Plus(b) == a.Plus(b).Plus(c)
  {
  }

  lemma TimesAdds(d: Amounts, x: real, y: real)
    ensures d.Times(x).Plus(d.Times(y)) == d.Times(x + y)
  {
  }

  // Closing lots

  function Bag(lots: seq<Lot>): multiset<Lot> { multiset(lots) }

  lemma {:induction false} ClosingKeepsBags(open: seq<Lot>, closed: seq<Lot>, ids: seq<string>)
    ensures var c := CloseLots(open, closed, ids);
      Bag(c.open) + Bag(c.closed) == Bag(open) + Bag(closed)
    decreases |ids|
  {
    hide Bag, Find;
    if ids != [] {
      var i := Find(open, ids[0]);
      if i < |open| {
        ClosingKeepsBags(open[..i] + open[i + 1..], closed + [open[i]], ids[1..]);
        ClosingOneKeepsBags(open, closed, i);
      }
    }
  }

  lemma ClosingOneKeepsBags(open: seq<Lot>, closed: seq<Lot>, i: nat)
    requires i < |open|
    ensures Bag(open[..i] + open[i + 1..]) + Bag(closed + [open[i]]) == Bag(open) + Bag(closed)
  {
    MultisetRemove(open, i);
  }

  lemma ClosingKeepsLots(open: seq<Lot>, closed: seq<Lot>, ids: seq<string>)
    ensures var c := CloseLots(open, closed, ids);
      multiset(c.open + c.closed) == multiset(open + closed)
  {
    hide CloseLots;
    ClosingKeepsBags(open, closed, ids);
  }

  function IdOf(lot: Lot): string { lot.paymentId }

  /** Every ID on the closing list is found, so closing cannot fail. */
  lemma {:induction false} ClosingSucceeds(open: seq<Lot>, closed: seq<Lot>, ids: seq<string>)
    requires multiset(ids) <= multiset(Image(open, IdOf))
    ensures CloseLots(open, closed, ids).ok
  {
    if ids != [] {
      var i := Find(open, ids[0]);
      var names := Image(open, IdOf);
      assert ids[0] in multiset(names);
      var k :| 0 <= k < |names| && names[k] == ids[0];
      ImageAt(open, k, IdOf);
      assert open[k].paymentId == ids[0];
      var rest := open[..i] + open[i + 1..];
      ImageRemove(open, i, IdOf);
      SubMultisetTail(ids, multiset(Image(open, IdOf)), multiset(Image(rest, IdOf)));
      ClosingSucceeds(rest, closed + [open[i]], ids[1..]);
    }
  }

  lemma {:induction false} UsedUpIdsAreThere(lots: seq<Lot>, t: real)
    ensures multiset(UsedUpIds(lots, t)) <= multiset(Image(lots, IdOf))
  {
    if lots != [] {
      UsedUpIdsAreThere(lots[1..], t);
      ImageFirst(lots, IdOf);
      assert IdOf(lots[0]) == lots[0].paymentId;
    }
  }

  lemma ClosingPrefixSucceeds(lots: seq<Lot>, closed: seq<Lot>, pos: nat, t: real)
    requires pos <= |lots|
    ensures CloseLots(lots, closed, UsedUpIds(lots[..pos], t)).ok
  {
    UsedUpIdsAreThere(lots[..pos], t);
    assert lots == lots[..pos] + lots[pos..];
    ImageAppend(lots[..pos], lots[pos..], IdOf);
    ClosingSucceeds(lots, closed, UsedUpIds(lots[..pos], t));
  }

  /** The lots that confirming would close are found again by their IDs, so nothing but a negative balance fails it. */
  lemma ConfirmClosingSucceeds(s: SideState, paymentId: string, amount: real, t: real)
    ensures ConfirmClosing(s, paymentId, amount, t).ok
  {
    hide CloseLots, UsedUpIds;
    ClosingPrefixSucceeds(SpentLots(s, paymentId, amount, t), s.closed, ConfirmScan(s, paymentId, amount, t).pos, t);
  }

  // Views: what a lot keeps through an operation

  function AllLots(s: SideState): seq<Lot> { s.open + s.closed }

  lemma MovedKeepsView<T(!new)>(
      lots: seq<Lot>, sc: Scanned, full: Lot -> Lot, part: (Lot, real) -> Lot, view: Lot -> T)
    requires sc.pos <= |lots|
    requires forall l :: view(full(l)) == view(l)
    requires forall l, a :: view(part(l, a)) == view(l)
    ensures Image(Moved(lots, sc, full, part), view) == Image(lots, view)
  {
  }

  lemma ReadyKeepsView<T(!new)>(s: SideState, amount: real, t: real, view: Lot -> T)
    requires forall l, a :: view(MoveToReady(l, a)) == view(l)
    ensures Image(AllLots(AddReady(s, amount, t).side), view) == Image(AllLots(s), view)
  {
    MovedKeepsView(s.open, ReadyScan(s, amount, t), FullyReady, MoveToReady, view);
    ImageAppend(s.open, s.closed, view);
    ImageAppend(AddReady(s, amount, t).side.open, s.closed, view);
  }

  lemma PreauthKeepsView<T(!new)>(s: SideState, c: string, p: string, amount: real, t: real, view: Lot -> T)
    requires forall l, a :: view(MoveToPreauth(l, c, p, a)) == view(l)
    ensures Image(AllLots(Preauth(s, c, p, amount, t).side), view) == Image(AllLots(s), view)
  {
    MovedKeepsView(s.open, PreauthScan(s, amount, t), FullyPreauth(c, p), PartlyPreauth(c, p), view);
    ImageAppend(s.open, s.closed, view);
    ImageAppend(Preauth(s, c, p, amount, t).side.open, s.closed, view);
  }

  lemma ConfirmKeepsView<T(!new)>(s: SideState, p: string, amount: real, t: real, view: Lot -> T)
    requires forall l :: view(FullySpent(p)(l)) == view(l)
    requires forall l, a :: view(PartlySpent(p, t)(l, a)) == view(l)
    ensures multiset(Image(AllLots(Confirm(s, p, amount, t).side), view)) == multiset(Image(AllLots(s), view))
  {
    var sc := ConfirmScan(s, p, amount, t);
    var lots := SpentLots(s, p, amount, t);
    var c := ConfirmClosing(s, p, amount, t);
    MovedKeepsView(s.open, sc, FullySpent(p), PartlySpent(p, t), view);
    ImageAppend(s.open, s.closed, view);
    ImageAppend(lots, s.closed, view);
    ClosingKeepsLots(lots, s.closed, UsedUpIds(lots[..sc.pos], t));
    ImagePermutation(c.open + c.closed, lots + s.closed, view);
  }

  // Conservation

  /** A deposit as it was booked; a lot's four amounts always add up to it. */
  datatype Stub = Stub(paymentId: string, seqNum: Option<nat>, amount: real)

  function TotalOf(lot: Lot): real { lot.unconfirmed + lot.ready + lot.preauth + lot.spent }

  function StubOf(lot: Lot): Stub { Stub(lot.paymentId, lot.seqNum, TotalOf(lot)) }

  function AmountOf(stub: Stub): real { stub.amount }

  predicate HasStub(stubs: seq<Stub>, n: Option<nat>) {
    exists b :: b in stubs && b.seqNum == n
  }

  function Book(booked: seq<Stub>, op: Op): seq<Stub> {
    match op
    case Deposit(p, n, a) => if n.Some? && HasStub(booked, n) then booked else booked + [Stub(p, n, a)]
    case _ => booked
  }

  /** The deposits a run books: a repeated sequence number is booked once. */
  function Booked(ops: seq<Op>): seq<Stub> {
    if ops == [] then [] else Book(Booked(ops[..|ops| - 1]), ops[|ops| - 1])
  }

  /** A sequence number is refused exactly when it was booked. */
  lemma OpenLotRepeats(s: SideState, n: Option<nat>, booked: seq<Stub>)
    requires multiset(Image(AllLots(s), StubOf)) == multiset(booked)
    ensures HasSeqNum(s.open, n) || HasSeqNum(s.closed, n) <==> HasStub(booked, n)
  {
    var all := AllLots(s);
    var stubs := Image(all, StubOf);
    if l :| l in all && l.seqNum == n {
      var i :| 0 <= i < |all| && all[i] == l;
      assert stubs[i] == StubOf(l);
      assert stubs[i] in multiset(booked);
    }
    if b :| b in booked && b.seqNum == n {
      assert b in multiset(stubs);
      var j :| 0 <= j < |stubs| && stubs[j] == b;
      assert stubs[j] == StubOf(all[j]);
      assert all[j] in all;
    }
  }

  lemma DepositBooks(s: SideState, op: Op, t: real, booked: seq<Stub>)
    requires op.Deposit?
    requires multiset(Image(AllLots(s), StubOf)) == multiset(booked)
    ensures multiset(Image(AllLots(Apply(s, op, t)), StubOf)) == multiset(Book(booked, op))
    ensures Balance(Apply(s, op, t)) - Balance(s) == SumBy(Book(booked, op), AmountOf) - SumBy(booked, AmountOf)
  {
    OpenLotRepeats(s, op.seqNum, booked);
    var lot := NewLot(op.paymentId, op.seqNum, op.amount);
    var stub := Stub(op.paymentId, op.seqNum, op.amount);
    var all, all' := AllLots(s), s.open + [lot] + s.closed;
    assert all'[..|s.open|] + all'[|s.open| + 1..] == all;
    ImageRemove(all', |s.open|, StubOf);
    assert StubOf(lot) == stub;
    SumByAppend(booked, [stub], AmountOf);
  }

  lemma OtherOpsKeepStubs(s: SideState, op: Op, t: real)
    requires !op.Deposit?
    ensures multiset(Image(AllLots(Apply(s, op, t)), StubOf)) == multiset(Image(AllLots(s), StubOf))
    ensures Balance(Apply(s, op, t)) == Balance(s)
  {
    match op
    case MakeReady(a) => ReadyKeepsView(s, a, t, StubOf);
    case Authorize(c, p, a) => PreauthKeepsView(s, c, p, a, t, StubOf);
    case Pay(p, a) => ConfirmKeepsView(s, p, a, t, StubOf);
  }

  function Balance(s: SideState): real { s.unconfirmed + s.ready + s.preauth + s.spent }

  /** No lot is lost or invented and none changes its total: after any run, failing calls included,
      the open and closed lots are exactly the booked deposits, and so is the sum of the four balances. */
  lemma {:induction false} SideIsDeposits(ops: seq<Op>, t: real)
    ensures multiset(Image(AllLots(Run(ops, t)), StubOf)) == multiset(Booked(ops))
    ensures Balance(Run(ops, t)) == SumBy(Booked(ops), AmountOf)
  {
    if ops != [] {
      var s, op := Run(ops[..|ops| - 1], t), ops[|ops| - 1];
      SideIsDeposits(ops[..|ops| - 1], t);
      if op.Deposit? {
        DepositBooks(s, op, t, Booked(ops[..|ops| - 1]));
      } else {
        OtherOpsKeepStubs(s, op, t);
      }
    }
  }

  /** The balances and the lots carry the same total. */
  lemma BalancesAreLots(ops: seq<Op>, t: real)
    ensures Balance(Run(ops, t)) == SumBy(AllLots(Run(ops, t)), TotalOf)
  {
    SideIsDeposits(ops, t);
    var all := AllLots(Run(ops, t));
    SumByPermutation(Image(all, StubOf), Booked(ops), AmountOf);
    SumByImage(all, StubOf, AmountOf, TotalOf);
  }

  // Spends of one payment and of the others

  function ForeignSpends(spends: seq<Spend>, p: string): seq<Spend> {
    if spends == [] then []
    else (if spends[0].paymentId == p then [] else [spends[0]]) + ForeignSpends(spends[1..], p)
  }

  datatype ForeignView = ForeignView(stub: Stub, unconfirmed: real, ready: real, foreign: seq<Spend>)

  function ForeignOf(p: string): Lot -> ForeignView {
    (lot: Lot) => ForeignView(StubOf(lot), lot.unconfirmed, lot.ready, ForeignSpends(lot.spends, p))
  }

  lemma {:induction false} SpendAllSkipsForeign(spends: seq<Spend>, p: string)
    ensures ForeignSpends(SpendAll(spends, p), p) == ForeignSpends(spends, p)
  {
    if spends != [] {
      SpendAllSkipsForeign(spends[1..], p);
      assert SpendAll(spends, p)[1..] == SpendAll(spends[1..], p);
    }
  }

  lemma {:induction false} SpendDueSkipsForeign(spends: seq<Spend>, p: string, due: real, t: real)
    ensures ForeignSpends(SpendDue(spends, p, due, t), p) == ForeignSpends(spends, p)
  {
    if spends != [] {
      var rest := if spends[0].paymentId == p then due - Take(spends[0], due, t) else due;
      SpendDueSkipsForeign(spends[1..], p, rest, t);
      assert SpendDue(spends, p, due, t)[1..] == SpendDue(spends[1..], p, rest, t);
    }
  }

  /** Confirming a payment leaves every lot's total, its unconfirmed and ready amounts, and the spends
      of every other payment as they were, whether or not the call succeeds. */
  lemma ConfirmLeavesOthersAlone(s: SideState, p: string, amount: real, t: real)
    ensures multiset(Image(AllLots(Confirm(s, p, amount, t).side), ForeignOf(p)))
         == multiset(Image(AllLots(s), ForeignOf(p)))
  {
    forall l: Lot ensures ForeignOf(p)(FullySpent(p)(l)) == ForeignOf(p)(l) {
      SpendAllSkipsForeign(l.spends, p);
    }
    forall l: Lot, a: real ensures ForeignOf(p)(PartlySpent(p, t)(l, a)) == ForeignOf(p)(l) {
      SpendDueSkipsForeign(l.spends, p, a, t);
    }
    ConfirmKeepsView(s, p, amount, t, ForeignOf(p));
  }

  // Spend records agree with their lot

  function SpendPreauth(s: Spend): real { s.preauth }
  function SpendSpent(s: Spend): real { s.spent }

  /** A lot's spent amount is the sum of its spends, and its preauthorised amount covers what its spends still hold. */
  ghost predicate LotAgrees(lot: Lot, t: real) {
    && lot.spent == SumBy(lot.spends, SpendSpent)
    && lot.preauth >= SumBy(lot.spends, SpendPreauth)
    && lot.unconfirmed >= 0.0
    && lot.ready >= -t
    && SpendsHold(lot.spends, t)
  }

  ghost predicate SpendsHold(spends: seq<Spend>, t: real) {
    forall s :: s in spends ==> s.preauth >= -t
  }

  ghost predicate LotsAgree(lots: seq<Lot>, t: real) {
    forall l :: l in lots ==> LotAgrees(l, t)
  }

  lemma {:induction false} SpendAllSums(spends: seq<Spend>, p: string, t: real)
    requires 0.0 <= t && SpendsHold(spends, t)
    ensures var spends' := SpendAll(spends, p);
      && SumBy(spends', SpendSpent) == SumBy(spends, SpendSpent) + Held(spends, p)
      && SumBy(spends', SpendPreauth) == SumBy(spends, SpendPreauth) - Held(spends, p)
      && SpendsHold(spends', t)
  {
    if spends != [] {
      SpendAllSums(spends[1..], p, t);
      assert SpendAll(spends, p)[1..] == SpendAll(spends[1..], p);
    }
  }

  lemma {:induction false} SpendDueSums(spends: seq<Spend>, p: string, due: real, t: real)
    requires 0.0 <= t && SpendsHold(spends, t)
    ensures var spends' := SpendDue(spends, p, due, t);
      && SumBy(spends', SpendSpent) == SumBy(spends, SpendSpent) + Recorded(spends, p, due, t)
      && SumBy(spends', SpendPreauth) == SumBy(spends, SpendPreauth) - Held(spends, p)
      && SpendsHold(spends', t)
  {
    if spends != [] {
      var rest := if spends[0].paymentId == p then due - Take(spends[0], due, t) else due;
      SpendDueSums(spends[1..], p, rest, t);
      assert SpendDue(spends, p, due, t)[1..] == SpendDue(spends[1..], p, rest, t);
    }
  }

  lemma {:induction false} NothingDueRecordsNothing(spends: seq<Spend>, p: string, t: real)
    requires 0.0 <= t && SpendsHold(spends, t)
    ensures Recorded(spends, p, 0.0, t) == 0.0
  {
    if spends != [] {
      NothingDueRecordsNothing(spends[1..], p, t);
    }
  }

  /** A lot that covers the amount due records exactly that amount in its spends. */
  lemma {:induction false} DueIsRecorded(spends: seq<Spend>, p: string, due: real, t: real)
    requires 0.0 <= t && SpendsHold(spends, t)
    requires due - Held(spends, p) <= t
    requires due == 0.0 || due - Held(spends, p) < due
    ensures Recorded(spends, p, due, t) == due
  {
    if due == 0.0 {
      NothingDueRecordsNothing(spends, p, t);
    } else if spends[0].paymentId == p {
      if t < due - spends[0].preauth {
        DueIsRecorded(spends[1..], p, due - spends[0].preauth, t);
      } else {
        NothingDueRecordsNothing(spends[1..], p, t);
      }
    } else {
      DueIsRecorded(spends[1..], p, due, t);
    }
  }

  lemma MovedAgrees(lots: seq<Lot>, sc: Scanned, full: Lot -> Lot, part: (Lot, real) -> Lot, t: real)
    requires sc.pos <= |lots| && LotsAgree(lots, t)
    requires forall l :: LotAgrees(l, t) ==> LotAgrees(full(l), t)
    requires sc.done && sc.pos < |lots| ==> LotAgrees(part(lots[sc.pos], sc.amount), t)
    ensures LotsAgree(Moved(lots, sc, full, part), t)
  {
  }

  lemma ReadyAgrees(s: SideState, amount: real, t: real)
    requires 0.0 <= t && 0.0 <= amount && LotsAgree(s.open, t)
    ensures LotsAgree(AddReady(s, amount, t).side.open, t)
  {
    ScanMeaning(s.open, UnconfirmedOf, amount, t);
    var sc := ReadyScan(s, amount, t);
    if !(sc.done && (s.open[sc.pos].ready + sc.amount < -t || s.open[sc.pos].unconfirmed - sc.amount < -t)) {
      assert sc.done ==> s.open[sc.pos] in s.open;
      MovedAgrees(s.open, sc, FullyReady, MoveToReady, t);
    }
  }

  lemma PreauthLotAgrees(l: Lot, c: string, p: string, a: real, t: real)
    requires LotAgrees(l, t) && -t <= a && l.ready - a >= -t
    ensures LotAgrees(MoveToPreauth(l, c, p, a), t)
  {
    var spend := Spend(c, p, a, 0.0);
    SumByAppend(l.spends, [spend], SpendSpent);
    SumByAppend(l.spends, [spend], SpendPreauth);
  }

  lemma PreauthAgrees(s: SideState, c: string, p: string, amount: real, t: real)
    requires 0.0 <= t && 0.0 <= amount && LotsAgree(s.open, t)
    ensures LotsAgree(Preauth(s, c, p, amount, t).side.open, t)
  {
    var sc := PreauthScan(s, amount, t);
    ScanMeaning(s.open, ReadyOf, amount, t);
    forall l | LotAgrees(l, t) ensures LotAgrees(FullyPreauth(c, p)(l), t) {
      PreauthLotAgrees(l, c, p, l.ready, t);
    }
    if sc.done {
      PreauthLotAgrees(s.open[sc.pos], c, p, sc.amount, t);
    }
    MovedAgrees(s.open, sc, FullyPreauth(c, p), PartlyPreauth(c, p), t);
  }

  lemma FullySpentAgrees(l: Lot, p: string, t: real)
    requires 0.0 <= t && LotAgrees(l, t)
    ensures LotAgrees(FullySpent(p)(l), t)
  {
    SpendAllSums(l.spends, p, t);
  }

  lemma PartlySpentAgrees(l: Lot, p: string, a: real, t: real)
    requires 0.0 <= t && LotAgrees(l, t)
    requires -t < a || a == 0.0
    requires a - Held(l.spends, p) <= -t
    ensures LotAgrees(PartlySpent(p, t)(l, a), t)
  {
    SpendDueSums(l.spends, p, a, t);
    DueIsRecorded(l.spends, p, a, t);
  }

  lemma ConfirmAgrees(s: SideState, p: string, amount: real, t: real)
    requires 0.0 <= t && 0.0 <= amount && LotsAgree(AllLots(s), t)
    ensures LotsAgree(AllLots(Confirm(s, p, amount, t).side), t)
  {
    hide LotAgrees, UsedUpIds, CloseLots;
    var lots := SpentLots(s, p, amount, t);
    assert LotsAgree(s.open, t) && LotsAgree(s.closed, t);
    SpentLotsAgree(s, p, amount, t);
    var c := ConfirmClosing(s, p, amount, t);
    ClosingKeepsLots(lots, s.closed, UsedUpIds(lots[..ConfirmScan(s, p, amount, t).pos], t));
    SameLotsAgree(lots + s.closed, c.open + c.closed, t);
  }

  lemma SpentLotsAgree(s: SideState, p: string, amount: real, t: real)
    requires 0.0 <= t && 0.0 <= amount && LotsAgree(s.open, t)
    ensures LotsAgree(SpentLots(s, p, amount, t), t)
  {
    hide LotAgrees;
    var sc := ConfirmScan(s, p, amount, t);
    ScanMeaning(s.open, HeldBy(p), amount, t);
    forall l | LotAgrees(l, t) ensures LotAgrees(FullySpent(p)(l), t) {
      FullySpentAgrees(l, p, t);
    }
    if sc.done {
      assert s.open[sc.pos] in s.open;
      PartlySpentAgrees(s.open[sc.pos], p, sc.amount, t);
    }
    MovedAgrees(s.open, sc, FullySpent(p), PartlySpent(p, t), t);
  }

  lemma SameLotsAgree(lots: seq<Lot>, lots': seq<Lot>, t: real)
    requires LotsAgree(lots, t) && multiset(lots) == multiset(lots')
    ensures LotsAgree(lots', t)
  {
    forall l | l in lots' ensures LotAgrees(l, t) {
      assert l in multiset(lots);
    }
  }

  ghost predicate NonNegative(op: Op) {
    op.amount >= 0.0
  }

  /** After any run of nonnegative requests, failing calls included, every lot's spent amount is the sum of its
      spends and its preauthorised amount covers what the spends still hold. */
  lemma {:induction false} SpendsAgreeWithLots(ops: seq<Op>, t: real)
    requires 0.0 <= t && forall op :: op in ops ==> NonNegative(op)
    ensures LotsAgree(AllLots(Run(ops, t)), t)
  {
    if ops != [] {
      var s, op := Run(ops[..|ops| - 1], t), ops[|ops| - 1];
      SpendsAgreeWithLots(ops[..|ops| - 1], t);
      assert LotsAgree(s.open, t) && LotsAgree(s.closed, t);
      assert NonNegative(op);
      StepAgrees(s, op, t);
    }
  }

  lemma StepAgrees(s: SideState, op: Op, t: real)
    requires 0.0 <= t && NonNegative(op) && LotsAgree(AllLots(s), t)
    ensures LotsAgree(AllLots(Apply(s, op, t)), t)
  {
    assert LotsAgree(s.open, t) && LotsAgree(s.closed, t);
    match op
    case Deposit(p, n, a) =>
    case MakeReady(a) => ReadyAgrees(s, a, t);
    case Authorize(c, p, a) => PreauthAgrees(s, c, p, a, t);
    case Pay(p, a) => ConfirmAgrees(s, p, a, t);
  }

  /** The four balances. */
  function Balances(s: SideState): Amounts { Amounts(s.unconfirmed, s.ready, s.preauth, s.spent) }
}
