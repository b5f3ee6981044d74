/** Payments that are confirmed for at most what was authorized for them keep the balances close to the lots. */
module CollateralCareful {
  import opened Common
  import opened CollateralSpec
  import opened CollateralTheory
  import opened CollateralDrift

  // What a caller knows

  /** What was authorized for a payment since it was last confirmed. */
  function Granted(ops: seq<Op>, p: string, t: real): real
    decreases |ops|
  {
    if ops == [] then 0.0
    else
      var before, op := ops[..|ops| - 1], ops[|ops| - 1];
      var s := SafeRun(before, t);
      match op
      case Authorize(c, q, a) =>
        Granted(before, p, t) + if q == p && Preauth(s, c, q, a, t).status == Some(Approved(q)) then a else 0.0
      case Pay(q, a) =>
        if q == p && ConfirmedBy(s, q, a, t) then 0.0 else Granted(before, p, t)
      case _ => Granted(before, p, t)
  }

  predicate ConfirmedBy(s: SideState, q: string, a: real, t: real) {
    s.preauth - a >= -t && ConfirmSide(s, q, a, t).status.Some?
  }

  /** Fresh payment IDs for new lots, nonnegative amounts, and no payment confirmed for more than was authorized since
      it was last confirmed: a caller knows all of this from the answers. */
  ghost predicate Careful(ops: seq<Op>, t: real)
    decreases |ops|
  {
    ops != [] ==>
      var before, op := ops[..|ops| - 1], ops[|ops| - 1];
      var s := SafeRun(before, t);
      && Careful(before, t)
      && op.amount >= 0.0
      && (op.Deposit? ==> forall i :: 0 <= i < |s.open| ==> s.open[i].paymentId != op.paymentId)
      && (op.Pay? ==> op.amount <= Granted(before, op.paymentId, t))
  }

  // What payments keep in the lots: tolerances can leave a spend with less than nothing

  function Over(x: real): real { if 0.0 < x then x else 0.0 }

  function Under(x: real): real { Over(-x) }

  function OverFor(p: string): Spend -> real {
    (s: Spend) => if s.paymentId == p then Over(s.preauth) else 0.0
  }

  function OverIn(s: Spend): real { Over(s.preauth) }

  function UnderIn(s: Spend): real { Under(s.preauth) }

  function KeptFor(p: string): Lot -> real {
    (l: Lot) => SumBy(l.spends, OverFor(p))
  }

  function Kept(l: Lot): real { SumBy(l.spends, OverIn) }

  function SlackIn(l: Lot): real { SumBy(l.spends, UnderIn) + Under(l.ready) }

  /** What was granted to payments and is not kept for them. */
  function Lacking(s: SideState, granted: string -> real): string -> real {
    (p: string) => Over(granted(p) - SumBy(s.open, KeptFor(p)))
  }

  function Grants(ops: seq<Op>, t: real): string -> real {
    (p: string) => Granted(ops, p, t)
  }

  // Sums over payments

  lemma {:induction false} SumOverAtMost<K(!new)>(s: set<K>, f: K -> real, g: K -> real)
    requires forall k :: k in s ==> f(k) <= g(k)
    ensures SumOver(s, f) <= SumOver(s, g)
  {
    if s != {} {
      var k :| k in s && SumOver(s, f) == f(k) + SumOver(s - {k}, f);
      SumOverTake(s, g, k);
      SumOverAtMost(s - {k}, f, g);
    }
  }

  lemma {:induction false} SumOverPlus<K(!new)>(s: set<K>, f: K -> real, g: K -> real, h: K -> real)
    requires forall k :: k in s ==> h(k) == f(k) + g(k)
    ensures SumOver(s, h) == SumOver(s, f) + SumOver(s, g)
  {
    if s != {} {
      var k :| k in s && SumOver(s, f) == f(k) + SumOver(s - {k}, f);
      SumOverTake(s, g, k);
      SumOverTake(s, h, k);
      SumOverPlus(s - {k}, f, g, h);
    }
  }

  function InSpend(x: Spend): string -> real {
    (p: string) => if x.paymentId == p then Over(x.preauth) else 0.0
  }

  function InSpends(spends: seq<Spend>): string -> real {
    (p: string) => SumBy(spends, OverFor(p))
  }

  function InLots(lots: seq<Lot>): string -> real {
    (p: string) => SumBy(lots, KeptFor(p))
  }

  /** A spend counts for one payment at most. */
  lemma OnePayment(ids: set<string>, x: Spend)
    ensures SumOver(ids, InSpend(x)) <= OverIn(x)
  {
    if x.paymentId in ids {
      SumOverTake(ids, InSpend(x), x.paymentId);
      SumOverZero(ids - {x.paymentId}, InSpend(x));
    } else {
      SumOverZero(ids, InSpend(x));
    }
  }

  lemma {:induction false} SpendsOfPayments(ids: set<string>, spends: seq<Spend>)
    ensures SumOver(ids, InSpends(spends)) <= SumBy(spends, OverIn)
  {
    if spends == [] {
      SumOverZero(ids, InSpends(spends));
    } else {
      OnePayment(ids, spends[0]);
      SpendsOfPayments(ids, spends[1..]);
      SumOverPlus(ids, InSpend(spends[0]), InSpends(spends[1..]), InSpends(spends));
    }
  }

  lemma {:induction false} LotsOfPayments(ids: set<string>, lots: seq<Lot>)
    ensures SumOver(ids, InLots(lots)) <= SumBy(lots, Kept)
  {
    if lots == [] {
      SumOverZero(ids, InLots(lots));
    } else {
      SpendsOfPayments(ids, lots[0].spends);
      LotsOfPayments(ids, lots[1..]);
      SumOverPlus(ids, InSpends(lots[0].spends), InLots(lots[1..]), InLots(lots));
    }
  }

  // Moves

  /** Moves that leave each lot's amount alone leave the total alone. */
  lemma KeptTotal(lots: seq<Lot>, sc: Scanned, full: Lot -> Lot, part: (Lot, real) -> Lot, f: Lot -> real)
    requires sc.pos <= |lots|
    requires forall l :: f(full(l)) == f(l)
    requires forall l, a :: f(part(l, a)) == f(l)
    ensures SumBy(Moved(lots, sc, full, part), f) == SumBy(lots, f)
  {
    var same := (x: real) => x;
    MovedKeepsView(lots, sc, full, part, f);
    SumByImage(lots, f, same, f);
    SumByImage(Moved(lots, sc, full, part), f, same, f);
  }

  /** Moves that add nothing but at the boundary. */
  lemma {:induction false} MovedAtMost(
      lots: seq<Lot>, sc: Scanned, full: Lot -> Lot, part: (Lot, real) -> Lot, f: Lot -> real, more: real)
    requires sc.pos <= |lots| && (sc.done <==> sc.pos < |lots|) && 0.0 <= more
    requires forall l :: l in lots ==> f(full(l)) <= f(l)
    requires sc.done ==> f(part(lots[sc.pos], sc.amount)) <= f(lots[sc.pos]) + more
    ensures SumBy(Moved(lots, sc, full, part), f) <= SumBy(lots, f) + more
  {
    hide Moved;
    if lots == [] {
      NothingMoved(sc, full, part);
    } else {
      FirstMoved(lots, sc, full, part);
      assert lots[0] in lots;
      if 0 < sc.pos {
        var sc' := sc.(pos := sc.pos - 1);
        MovedAtMost(lots[1..], sc', full, part, f, more);
        var rest := Moved(lots[1..], sc', full, part);
        assert ([full(lots[0])] + rest)[1..] == rest;
      } else {
        assert ([part(lots[0], sc.amount)] + lots[1..])[1..] == lots[1..];
      }
    }
  }

  /** Moves that add to each lot at least what they take. */
  lemma {:induction false} MovedAtLeast(
      lots: seq<Lot>, full: Lot -> Lot, part: (Lot, real) -> Lot, key: Lot -> real, f: Lot -> real, amount: real,
      t: real)
    requires forall l :: f(l) + key(l) <= f(full(l))
    requires forall l, a :: f(l) + a <= f(part(l, a))
    ensures var sc := Scan(lots, key, amount, t);
      SumBy(lots, f) + amount - Uncovered(sc) <= SumBy(Moved(lots, sc, full, part), f)
  {
    hide Moved;
    var sc := Scan(lots, key, amount, t);
    if lots == [] {
      NothingMoved(sc, full, part);
    } else {
      var lot := lots[0];
      FirstMoved(lots, sc, full, part);
      if -t < amount - key(lot) {
        var rest := Moved(lots[1..], sc.(pos := sc.pos - 1), full, part);
        MovedAtLeast(lots[1..], full, part, key, f, amount - key(lot), t);
        assert ([full(lot)] + rest)[1..] == rest;
      } else {
        assert ([part(lot, amount)] + lots[1..])[1..] == lots[1..];
      }
    }
  }

  // One operation at a time

  /** What was confirmed in excess, what payments lack and the slack in the lots. */
  ghost function Loose(s: SideState, granted: string -> real, ids: set<string>, excess: real): real {
    excess + SumOver(ids, Lacking(s, granted)) + SumBy(s.open, SlackIn)
  }

  /** That is within what the tolerances of n requests and of the closed lots, and what preauthorizations found missing,
      account for. */
  ghost predicate Afforded(
      s: SideState, granted: string -> real, ids: set<string>, excess: real, n: nat, t: real)
  {
    Loose(s, granted, ids, excess) + Gap(s).unconfirmed + Gap(s).ready <=
      Times(n, t) + Times(n, t) + Times(|s.closed|, t)
  }

  lemma DepositLoose(
      s: SideState, id: string, n: Option<nat>, a: real, granted: string -> real, granted': string -> real,
      ids: set<string>, excess: real)
    requires forall p :: granted'(p) == granted(p)
    ensures var s' := OpenLot(s, id, n, a);
      && Loose(s', granted', ids, excess) == Loose(s, granted, ids, excess)
      && Gap(s') == Gap(s) && s'.closed == s.closed
  {
    hide Lacking, LotAmounts, SlackIn;
    var s', lot := OpenLot(s, id, n, a), NewLot(id, n, a);
    DepositGap(s, id, n, a);
    forall p ensures Lacking(s', granted')(p) == Lacking(s, granted)(p) {
      DepositLacks(s, id, n, a, granted, granted', p);
    }
    SumOverSame(ids, Lacking(s, granted), Lacking(s', granted'));
    if s' != s {
      SumByAppend(s.open, [lot], SlackIn);
      SumByOne(lot, SlackIn);
      NothingSlack(lot);
    }
  }

  lemma NothingSlack(lot: Lot)
    requires lot.spends == [] && lot.ready == 0.0
    ensures SlackIn(lot) == 0.0
  {
  }

  lemma DepositGap(s: SideState, id: string, n: Option<nat>, a: real)
    ensures Gap(OpenLot(s, id, n, a)) == Gap(s)
  {
    hide LotAmounts;
    var lot := NewLot(id, n, a);
    LotAmountsAppend(s.open, [lot]);
    LotAmountsAppend(s.open, s.closed);
    LotAmountsAppend(s.open + [lot], s.closed);
    NewLotAmounts(id, n, a);
  }

  lemma NewLotAmounts(id: string, n: Option<nat>, a: real)
    ensures LotAmounts([NewLot(id, n, a)]) == Amounts(a, 0.0, 0.0, 0.0)
  {
    assert [NewLot(id, n, a)][1..] == [];
  }

  lemma DepositLacks(
      s: SideState, id: string, n: Option<nat>, a: real, granted: string -> real, granted': string -> real, p: string)
    requires granted'(p) == granted(p)
    ensures Lacking(OpenLot(s, id, n, a), granted')(p) == Lacking(s, granted)(p)
  {
    var lot := NewLot(id, n, a);
    SumByAppend(s.open, [lot], KeptFor(p));
    SumByOne(lot, KeptFor(p));
  }

  lemma ReadySlack(s: SideState, a: real, t: real)
    requires 0.0 <= t && 0.0 <= a && LotsAgree(s.open, t)
    ensures SumBy(ReadyLots(s, a, t), SlackIn) <= SumBy(s.open, SlackIn) + t
  {
    var sc := ReadyScan(s, a, t);
    ScanMeaning(s.open, UnconfirmedOf, a, t);
    forall l | l in s.open ensures SlackIn(FullyReady(l)) <= SlackIn(l) {
      assert LotAgrees(l, t);
    }
    if sc.done && sc.pos == 0 {
      assert s.open[..0] == [];
    }
    MovedAtMost(s.open, sc, FullyReady, MoveToReady, SlackIn, t);
  }

  lemma ReadyLoose(
      s: SideState, a: real, t: real, granted: string -> real, granted': string -> real, ids: set<string>, excess: real)
    requires 0.0 <= t && 0.0 <= a && LotsAgree(s.open, t) && AddReady(s, a, t).status.Some?
    requires forall p :: granted'(p) == granted(p)
    ensures var s' := AddReady(s, a, t).side;
      && Loose(s', granted', ids, excess) <= Loose(s, granted, ids, excess) + t
      && Gap(s').unconfirmed + Gap(s').ready == Gap(s).unconfirmed + Gap(s).ready && s'.closed == s.closed
  {
    hide Moved, LotAmounts, Scan, Uncovered;
    var s' := AddReady(s, a, t).side;
    ReadyGap(s, a, t);
    ReadySlack(s, a, t);
    forall p ensures Lacking(s', granted')(p) == Lacking(s, granted)(p) {
      KeptTotal(s.open, ReadyScan(s, a, t), FullyReady, MoveToReady, KeptFor(p));
    }
    SumOverSame(ids, Lacking(s, granted), Lacking(s', granted'));
  }

  // Authorizing

  lemma OneSpendMore(l: Lot, x: Spend, p: string)
    ensures SumBy(l.spends + [x], OverFor(p)) == SumBy(l.spends, OverFor(p)) + OverFor(p)(x)
    ensures SumBy(l.spends + [x], UnderIn) == SumBy(l.spends, UnderIn) + Under(x.preauth)
  {
    SumByAppend(l.spends, [x], OverFor(p));
    SumByAppend(l.spends, [x], UnderIn);
    SumByOne(x, OverFor(p));
    SumByOne(x, UnderIn);
  }

  lemma PreauthSlack(s: SideState, c: string, q: string, a: real, t: real)
    requires 0.0 <= t && 0.0 <= a
    ensures SumBy(PreauthLots(s, c, q, a, t), SlackIn) <= SumBy(s.open, SlackIn) + t
  {
    var sc, full, part := PreauthScan(s, a, t), FullyPreauth(c, q), PartlyPreauth(c, q);
    ScanMeaning(s.open, ReadyOf, a, t);
    forall l | l in s.open ensures SlackIn(full(l)) <= SlackIn(l) {
      OneSpendMore(l, Spend(c, q, l.ready, 0.0), q);
    }
    if sc.done {
      OneSpendMore(s.open[sc.pos], Spend(c, q, sc.amount, 0.0), q);
      if sc.pos == 0 {
        assert s.open[..0] == [];
      }
    }
    MovedAtMost(s.open, sc, full, part, SlackIn, t);
  }

  /** The payment is kept at least what was asked less what was missing, and other payments what they had. */
  lemma PreauthKeeps(s: SideState, c: string, q: string, a: real, t: real, p: string)
    ensures var lots := PreauthLots(s, c, q, a, t);
      if p == q then SumBy(s.open, KeptFor(p)) + a - Uncovered(PreauthScan(s, a, t)) <= SumBy(lots, KeptFor(p))
      else SumBy(lots, KeptFor(p)) == SumBy(s.open, KeptFor(p))
  {
    var sc, full, part := PreauthScan(s, a, t), FullyPreauth(c, q), PartlyPreauth(c, q);
    forall l: Lot, x: real
      ensures KeptFor(p)(part(l, x)) == KeptFor(p)(l) + if p == q then Over(x) else 0.0
    {
      OneSpendMore(l, Spend(c, q, x, 0.0), p);
    }
    forall l: Lot ensures KeptFor(p)(full(l)) == KeptFor(p)(l) + if p == q then Over(l.ready) else 0.0 {
      OneSpendMore(l, Spend(c, q, l.ready, 0.0), p);
    }
    if p == q {
      MovedAtLeast(s.open, full, part, ReadyOf, KeptFor(p), a, t);
    } else {
      KeptTotal(s.open, sc, full, part, KeptFor(p));
    }
  }

  lemma PreauthLacks(
      s: SideState, c: string, q: string, a: real, t: real, granted: string -> real, granted': string -> real,
      p: string)
    requires 0.0 <= t && 0.0 <= a && PreauthSide(s, c, q, a, t).status.Some?
    requires granted'(p) == granted(p) + if p == q then a else 0.0
    ensures var s' := PreauthSide(s, c, q, a, t).side;
      Lacking(s', granted')(p) <=
        Lacking(s, granted)(p) + if p == q then Uncovered(PreauthScan(s, a, t)) + t else 0.0
  {
    hide KeptFor, PreauthLots, Scan, Uncovered;
    PreauthKeeps(s, c, q, a, t, p);
    UncoveredBounds(s.open, ReadyOf, a, t);
  }

  /** Only one payment lacks more. */
  lemma OneLacksMore(ids: set<string>, f: string -> real, g: string -> real, q: string, more: real)
    requires q in ids && forall p :: g(p) <= f(p) + if p == q then more else 0.0
    ensures SumOver(ids, g) <= SumOver(ids, f) + more
  {
    SumOverTake(ids, f, q);
    SumOverTake(ids, g, q);
    SumOverAtMost(ids - {q}, g, f);
  }

  lemma PreauthLoose(
      s: SideState, c: string, q: string, a: real, t: real, granted: string -> real, granted': string -> real,
      ids: set<string>, excess: real)
    requires 0.0 <= t && 0.0 <= a && PreauthSide(s, c, q, a, t).status.Some? && q in ids
    requires forall p :: granted'(p) == granted(p) + if p == q then a else 0.0
    ensures var s' := PreauthSide(s, c, q, a, t).side; var u := Uncovered(PreauthScan(s, a, t));
      && Loose(s', granted', ids, excess) <= Loose(s, granted, ids, excess) + u + t + t
      && Gap(s').unconfirmed + Gap(s').ready == Gap(s).unconfirmed + Gap(s).ready - u && s'.closed == s.closed
  {
    hide LotAmounts, Scan, Uncovered, PreauthLots, Lacking, SlackIn;
    var s', u := PreauthSide(s, c, q, a, t).side, Uncovered(PreauthScan(s, a, t));
    PreauthGap(s, c, q, a, t);
    PreauthSlack(s, c, q, a, t);
    forall p ensures Lacking(s', granted')(p) <= Lacking(s, granted)(p) + if p == q then u + t else 0.0 {
      PreauthLacks(s, c, q, a, t, granted, granted', p);
    }
    OneLacksMore(ids, Lacking(s, granted), Lacking(s', granted'), q, u + t);
  }

  // Confirming: the lots spend what they keep for the payment

  lemma {:induction false} SpendAllKeeps(spends: seq<Spend>, q: string, p: string)
    ensures p != q ==> SumBy(SpendAll(spends, q), OverFor(p)) == SumBy(spends, OverFor(p))
    ensures SumBy(SpendAll(spends, q), UnderIn) ==
      SumBy(spends, UnderIn) - (SumBy(spends, OverFor(q)) - Held(spends, q))
  {
    if spends != [] {
      SpendAllKeeps(spends[1..], q, p);
      assert SpendAll(spends, q)[1..] == SpendAll(spends[1..], q);
    }
  }

  lemma {:induction false} SpendDueKeeps(spends: seq<Spend>, q: string, due: real, t: real, p: string)
    ensures p != q ==> SumBy(SpendDue(spends, q, due, t), OverFor(p)) == SumBy(spends, OverFor(p))
    ensures SumBy(SpendDue(spends, q, due, t), UnderIn) <= SumBy(spends, UnderIn)
  {
    if spends != [] {
      var rest := if spends[0].paymentId == q then due - Take(spends[0], due, t) else due;
      SpendDueKeeps(spends[1..], q, rest, t, p);
      assert SpendDue(spends, q, due, t)[1..] == SpendDue(spends[1..], q, rest, t);
    }
  }

  lemma {:induction false} HeldIsLess(spends: seq<Spend>, q: string)
    ensures Held(spends, q) <= SumBy(spends, OverFor(q))
    ensures SumBy(spends, OverFor(q)) - Held(spends, q) <= SumBy(spends, UnderIn)
  {
    if spends != [] {
      HeldIsLess(spends[1..], q);
    }
  }

  lemma KeptNonNegative(lots: seq<Lot>, p: string)
    ensures 0.0 <= SumBy(lots, KeptFor(p))
  {
    forall i | 0 <= i < |lots| ensures 0.0 <= KeptFor(p)(lots[i]) {
      SumByNonNegative(lots[i].spends, OverFor(p));
    }
    SumByNonNegative(lots, KeptFor(p));
  }

  lemma SpentKeeps(s: SideState, q: string, a: real, t: real, p: string)
    ensures var lots := SpentLots(s, q, a, t);
      if p == q then 0.0 <= SumBy(lots, KeptFor(p)) else SumBy(lots, KeptFor(p)) == SumBy(s.open, KeptFor(p))
  {
    if p == q {
      KeptNonNegative(SpentLots(s, q, a, t), p);
    } else {
      forall l: Lot ensures KeptFor(p)(FullySpent(q)(l)) == KeptFor(p)(l) {
        SpendAllKeeps(l.spends, q, p);
      }
      forall l: Lot, x: real ensures KeptFor(p)(PartlySpent(q, t)(l, x)) == KeptFor(p)(l) {
        SpendDueKeeps(l.spends, q, x, t, p);
      }
      KeptTotal(s.open, ConfirmScan(s, q, a, t), FullySpent(q), PartlySpent(q, t), KeptFor(p));
    }
  }

  /** When all lots are moved. */
  lemma {:induction false} MovedAll(
      lots: seq<Lot>, sc: Scanned, full: Lot -> Lot, part: (Lot, real) -> Lot, f: Lot -> real, g: Lot -> real,
      h: Lot -> real)
    requires !sc.done && sc.pos == |lots|
    requires forall l :: f(full(l)) + (g(l) - h(l)) == f(l)
    ensures SumBy(Moved(lots, sc, full, part), f) + (SumBy(lots, g) - SumBy(lots, h)) == SumBy(lots, f)
  {
    hide Moved;
    if lots == [] {
      NothingMoved(sc, full, part);
    } else {
      FirstMoved(lots, sc, full, part);
      var sc' := sc.(pos := sc.pos - 1);
      MovedAll(lots[1..], sc', full, part, f, g, h);
      var rest := Moved(lots[1..], sc', full, part);
      assert ([full(lots[0])] + rest)[1..] == rest;
    }
  }

  lemma SpentSlack(s: SideState, q: string, a: real, t: real)
    ensures var lots, sc := SpentLots(s, q, a, t), ConfirmScan(s, q, a, t);
      && SumBy(lots, SlackIn) <= SumBy(s.open, SlackIn)
      && (!sc.done ==> SumBy(lots, SlackIn) + (SumBy(s.open, KeptFor(q)) - HeldInTotal(s, q)) == SumBy(s.open, SlackIn))
  {
    var sc, full, part := ConfirmScan(s, q, a, t), FullySpent(q), PartlySpent(q, t);
    forall l: Lot
      ensures SlackIn(full(l)) + (KeptFor(q)(l) - HeldBy(q)(l)) == SlackIn(l) && HeldBy(q)(l) <= KeptFor(q)(l)
    {
      SpendAllKeeps(l.spends, q, q);
      HeldIsLess(l.spends, q);
    }
    if sc.done {
      SpendDueKeeps(s.open[sc.pos].spends, q, sc.amount, t, q);
    } else {
      MovedAll(s.open, sc, full, part, SlackIn, KeptFor(q), HeldBy(q));
    }
    MovedAtMost(s.open, sc, full, part, SlackIn, 0.0);
  }

  /** What is confirmed beyond what the lots hold comes out of what the payment lacked and of its slack. */
  lemma SpentLoose(
      s: SideState, q: string, a: real, t: real, granted: string -> real, granted': string -> real, ids: set<string>,
      excess: real)
    requires 0.0 <= t && 0.0 <= a <= granted(q) && q in ids
    requires forall p :: granted'(p) == if p == q then 0.0 else granted(p)
    ensures var s1 := s.(open := SpentLots(s, q, a, t));
      Loose(s1, granted', ids, excess + ExcessOf(s, Pay(q, a), t)) <= Loose(s, granted, ids, excess)
  {
    hide SpentLots, Scan, SlackIn, ConfirmSide, KeptFor;
    var s1 := s.(open := SpentLots(s, q, a, t));
    SpentSlack(s, q, a, t);
    UncoveredBounds(s.open, HeldBy(q), a, t);
    forall p ensures Lacking(s1, granted')(p) == if p == q then 0.0 else Lacking(s, granted)(p) {
      SpentKeeps(s, q, a, t, p);
    }
    SumOverChange(ids, Lacking(s, granted), Lacking(s1, granted'), q);
  }

  // Confirming: used-up lots are closed

  lemma {:induction false} ClosingTakes(open: seq<Lot>, closed: seq<Lot>, ids: seq<string>) returns (taken: seq<Lot>)
    ensures var c := CloseLots(open, closed, ids);
      c.closed == closed + taken && Bag(open) == Bag(c.open) + Bag(taken)
    decreases |ids|
  {
    hide Bag, Find;
    taken := [];
    assert closed + [] == closed && Bag(open) == Bag(open) + Bag([]) by { NothingInBag(open); }
    if ids != [] {
      var i := Find(open, ids[0]);
      if i < |open| {
        var more := ClosingTakes(open[..i] + open[i + 1..], closed + [open[i]], ids[1..]);
        taken := [open[i]] + more;
        assert closed + [open[i]] + more == closed + taken;
        OneMoreInBag(open, i, more);
      }
    }
  }

  lemma NothingInBag(open: seq<Lot>)
    ensures Bag(open) == Bag(open) + Bag([])
  {
  }

  lemma OneMoreInBag(open: seq<Lot>, i: nat, more: seq<Lot>)
    requires i < |open|
    ensures Bag(open) == Bag(open[..i] + open[i + 1..]) + Bag([open[i]])
    ensures Bag([open[i]] + more) == Bag([open[i]]) + Bag(more)
  {
    MultisetRemove(open, i);
  }

  /** A lot that is closed keeps little but for its slack. */
  lemma {:induction false} UsedUpKeepsLittle(lots: seq<Lot>, t: real)
    requires LotsAgree(lots, t) && ClosedAreUsedUp(lots, t)
    ensures SumBy(lots, Kept) <= Times(|lots|, t) + SumBy(lots, SlackIn)
  {
    if lots != [] {
      var l := lots[0];
      assert LotAgrees(l, t) && UsedUp(l, t);
      OverLessUnder(l.spends);
      UsedUpKeepsLittle(lots[1..], t);
    }
  }

  lemma {:induction false} OverLessUnder(spends: seq<Spend>)
    ensures SumBy(spends, OverIn) - SumBy(spends, UnderIn) == SumBy(spends, SpendPreauth)
  {
    if spends != [] {
      OverLessUnder(spends[1..]);
    }
  }

  lemma ClosedLoose(
      s: SideState, s': SideState, taken: seq<Lot>, t: real, granted: string -> real, ids: set<string>, excess: real)
    requires Bag(s.open) == Bag(s'.open) + Bag(taken) && LotsAgree(taken, t) && ClosedAreUsedUp(taken, t)
    ensures Loose(s', granted, ids, excess) <= Loose(s, granted, ids, excess) + Times(|taken|, t)
  {
    hide LotsAgree, ClosedAreUsedUp, SlackIn, Kept, KeptFor;
    TakenSum(s.open, s'.open, taken, SlackIn);
    UsedUpKeepsLittle(taken, t);
    LotsOfPayments(ids, taken);
    forall p ensures Lacking(s', granted)(p) <= Lacking(s, granted)(p) + InLots(taken)(p) {
      ClosedLacks(s, s', taken, granted, p);
    }
    var both := (p: string) => Lacking(s, granted)(p) + InLots(taken)(p);
    SumOverPlus(ids, Lacking(s, granted), InLots(taken), both);
    SumOverAtMost(ids, Lacking(s', granted), both);
  }

  lemma ClosedLacks(s: SideState, s': SideState, taken: seq<Lot>, granted: string -> real, p: string)
    requires Bag(s.open) == Bag(s'.open) + Bag(taken)
    ensures Lacking(s', granted)(p) <= Lacking(s, granted)(p) + InLots(taken)(p)
  {
    hide KeptFor, Over, Bag;
    TakenSum(s.open, s'.open, taken, KeptFor(p));
    KeptNonNegative(taken, p);
    OverGrows(granted(p) - SumBy(s.open, KeptFor(p)), SumBy(taken, KeptFor(p)));
  }

  lemma OverGrows(x: real, more: real)
    requires 0.0 <= more
    ensures Over(x + more) <= Over(x) + more
  {
  }

  lemma TakenSum(open: seq<Lot>, open': seq<Lot>, taken: seq<Lot>, f: Lot -> real)
    requires Bag(open) == Bag(open') + Bag(taken)
    ensures SumBy(open, f) == SumBy(open', f) + SumBy(taken, f)
  {
    SumByPermutation(open, open' + taken, f);
    SumByAppend(open', taken, f);
  }

  lemma {:induction false} TimesSum(m: nat, n: nat, t: real)
    ensures Times(m + n, t) == Times(m, t) + Times(n, t)
  {
    if m > 0 {
      TimesSum(m - 1, n, t);
    }
  }

  lemma PayLoose(
      s: SideState, q: string, a: real, t: real, granted: string -> real, granted': string -> real, ids: set<string>,
      excess: real)
    requires 0.0 <= t && 0.0 <= a <= granted(q) && q in ids && ConfirmSide(s, q, a, t).status.Some?
    requires s.preauth - a >= -t && DistinctIds(s.open) && ClosedAreUsedUp(s.closed, t) && LotsAgree(AllLots(s), t)
    requires forall p :: granted'(p) == if p == q then 0.0 else granted(p)
    ensures var s' := ConfirmSide(s, q, a, t).side;
      && Loose(s', granted', ids, excess + ExcessOf(s, Pay(q, a), t)) - Times(|s'.closed|, t)
           <= Loose(s, granted, ids, excess) - Times(|s.closed|, t)
      && Gap(s').unconfirmed + Gap(s').ready == Gap(s).unconfirmed + Gap(s).ready
  {
    hide SpentLots, Scan, Uncovered, UsedUpIds, CloseLots, DistinctIds, Loose, LotAmounts, LotsAgree;
    var s', lots := ConfirmSide(s, q, a, t).side, SpentLots(s, q, a, t);
    var e := excess + ExcessOf(s, Pay(q, a), t);
    SpentLoose(s, q, a, t, granted, granted', ids, excess);
    SpentIds(s, q, a, t);
    var taken := ClosingTakes(lots, s.closed, UsedUpIds(lots[..ConfirmScan(s, q, a, t).pos], t));
    ConfirmClosesUsedUp(s, q, a, t);
    ConfirmAgrees(s, q, a, t);
    TakenAgree(s', s.closed, taken, t);
    ClosedLoose(s.(open := lots), s', taken, t, granted', ids, e);
    TimesSum(|s.closed|, |taken|, t);
    ConfirmGap(s, q, a, t);
  }

  lemma TakenAgree(s: SideState, closed: seq<Lot>, taken: seq<Lot>, t: real)
    requires s.closed == closed + taken && LotsAgree(AllLots(s), t) && ClosedAreUsedUp(s.closed, t)
    ensures LotsAgree(taken, t) && ClosedAreUsedUp(taken, t)
  {
    forall l | l in taken ensures l in AllLots(s) && l in s.closed {
    }
  }

  // Whole runs

  ghost predicate Named(op: Op, ids: set<string>) {
    op.Authorize? || op.Pay? ==> op.paymentId in ids
  }

  /** What an operation makes of what is granted. */
  function GrantedAfter(s: SideState, op: Op, granted: real, p: string, t: real): real {
    match op
    case Authorize(c, q, a) =>
      granted + if q == p && Preauth(s, c, q, a, t).status == Some(Approved(q)) then a else 0.0
    case Pay(q, a) => if q == p && ConfirmedBy(s, q, a, t) then 0.0 else granted
    case _ => granted
  }

  lemma AffordedLater(
      s: SideState, s': SideState, granted: string -> real, granted': string -> real, ids: set<string>, excess: real,
      excess': real, n: nat, t: real)
    requires Afforded(s, granted, ids, excess, n, t) && 0.0 <= t
    requires Loose(s', granted', ids, excess') + Gap(s').unconfirmed + Gap(s').ready - Times(|s'.closed|, t)
      <= Loose(s, granted, ids, excess) + Gap(s).unconfirmed + Gap(s).ready - Times(|s.closed|, t) + t + t
    ensures Afforded(s', granted', ids, excess', n + 1, t)
  {
    hide Loose, Gap;
  }

  lemma SameLoose(s: SideState, granted: string -> real, granted': string -> real, ids: set<string>, excess: real)
    requires forall p :: granted'(p) == granted(p)
    ensures Loose(s, granted', ids, excess) == Loose(s, granted, ids, excess)
  {
    forall p ensures Lacking(s, granted')(p) == Lacking(s, granted)(p) {
    }
    SumOverSame(ids, Lacking(s, granted), Lacking(s, granted'));
  }

  lemma StepLoose(
      s: SideState, op: Op, t: real, granted: string -> real, granted': string -> real, ids: set<string>, excess: real)
    requires 0.0 <= t && 0.0 <= op.amount && Named(op, ids) && Succeeds(s, op, t)
    requires DistinctIds(s.open) && ClosedAreUsedUp(s.closed, t) && LotsAgree(AllLots(s), t)
    requires op.Pay? ==> op.amount <= granted(op.paymentId)
    requires forall p :: granted'(p) == GrantedAfter(s, op, granted(p), p, t)
    ensures var s', excess' := Apply(s, op, t), excess + ExcessOf(s, op, t);
      Loose(s', granted', ids, excess') + Gap(s').unconfirmed + Gap(s').ready - Times(|s'.closed|, t)
        <= Loose(s, granted, ids, excess) + Gap(s).unconfirmed + Gap(s).ready - Times(|s.closed|, t) + t + t
  {
    hide Loose, Gap, AddReady, PreauthSide, ConfirmSide, OpenLot, DistinctIds, ClosedAreUsedUp, Uncovered;
    OpenAgrees(s, t);
    match op
    case Deposit(id, n, a) => DepositLoose(s, id, n, a, granted, granted', ids, excess);
    case MakeReady(a) => ReadyLoose(s, a, t, granted, granted', ids, excess);
    case Authorize(c, q, a) =>
      if s.ready - a < -t {
        SameLoose(s, granted, granted', ids, excess);
      } else {
        ApprovedIsSome(s, c, q, a, t);
        PreauthLoose(s, c, q, a, t, granted, granted', ids, excess);
      }
    case Pay(q, a) =>
      if s.preauth - a < -t {
        SameLoose(s, granted, granted', ids, excess);
      } else {
        PayLoose(s, q, a, t, granted, granted', ids, excess);
      }
  }

  lemma ApprovedIsSome(s: SideState, c: string, q: string, a: real, t: real)
    ensures PreauthSide(s, c, q, a, t).status.Some? ==> PreauthSide(s, c, q, a, t).status == Some(Approved(q))
  {
  }

  lemma OpenAgrees(s: SideState, t: real)
    requires LotsAgree(AllLots(s), t)
    ensures LotsAgree(s.open, t)
  {
  }

  lemma FailingGrantsNothing(s: SideState, op: Op, granted: real, p: string, t: real)
    requires !Succeeds(s, op, t)
    ensures GrantedAfter(s, op, granted, p, t) == granted
  {
    hide PreauthSide, ConfirmSide;
  }

  lemma {:induction false} CarefulIsReasonable(ops: seq<Op>, t: real)
    requires Careful(ops, t)
    ensures Reasonable(ops, t)
    decreases |ops|
  {
    hide SafeRun, Granted;
    if ops != [] {
      CarefulIsReasonable(ops[..|ops| - 1], t);
    }
  }

  lemma OneMoreCareful(before: seq<Op>, op: Op, t: real)
    ensures var ops, s := before + [op], SafeRun(before, t);
      && (forall p :: Granted(ops, p, t) == GrantedAfter(s, op, Granted(before, p, t), p, t))
      && (Careful(ops, t) ==>
            Careful(before, t) && 0.0 <= op.amount && (op.Pay? ==> op.amount <= Granted(before, op.paymentId, t)))
  {
    hide Preauth, ConfirmedBy, SafeRun;
    assert (before + [op])[..|before|] == before;
  }

  ghost predicate AllNamed(ops: seq<Op>, ids: set<string>) {
    forall op :: op in ops ==> Named(op, ids)
  }

  lemma CarefulStep(s: SideState, op: Op, t: real, granted: string -> real, granted': string -> real, ids: set<string>,
      excess: real, n: nat)
    requires 0.0 <= t && 0.0 <= op.amount && Named(op, ids) && Afforded(s, granted, ids, excess, n, t)
    requires DistinctIds(s.open) && ClosedAreUsedUp(s.closed, t) && LotsAgree(AllLots(s), t)
    requires op.Pay? ==> op.amount <= granted(op.paymentId)
    requires forall p :: granted'(p) == GrantedAfter(s, op, granted(p), p, t)
    ensures var s' := if Succeeds(s, op, t) then Apply(s, op, t) else s;
      Afforded(s', granted', ids, excess + ExcessOf(s, op, t), n + 1, t) && LotsAgree(AllLots(s'), t)
  {
    hide Afforded, Apply, Succeeds, ExcessOf, Loose, Gap, LotsAgree, GrantedAfter, DistinctIds, ClosedAreUsedUp;
    var e := excess + ExcessOf(s, op, t);
    if Succeeds(s, op, t) {
      StepLoose(s, op, t, granted, granted', ids, excess);
      AffordedLater(s, Apply(s, op, t), granted, granted', ids, excess, e, n, t);
      StepAgrees(s, op, t);
    } else {
      forall p ensures granted'(p) == granted(p) {
        FailingGrantsNothing(s, op, granted(p), p, t);
      }
      FailingExceedsNothing(s, op, t);
      SameLoose(s, granted, granted', ids, excess);
      AffordedLater(s, s, granted, granted', ids, excess, e, n, t);
    }
  }

  lemma {:induction false} CarefulRunsAfford(ops: seq<Op>, ids: set<string>, t: real)
    requires 0.0 <= t && Careful(ops, t) && AllNamed(ops, ids)
    ensures var s := SafeRun(ops, t);
      Afforded(s, Grants(ops, t), ids, Excess(ops, t), |ops|, t) && LotsAgree(AllLots(s), t)
    decreases |ops|
  {
    hide Afforded, LotsAgree, Careful, SafeRun, Excess, Granted, Drift;
    if ops == [] {
      NothingAfforded(ids, t);
    } else {
      var before, op := ops[..|ops| - 1], ops[|ops| - 1];
      assert before + [op] == ops && op in ops;
      OneMoreCareful(before, op, t);
      OneMore(before, op, t);
      CarefulRunsAfford(before, ids, t);
      CarefulIsReasonable(before, t);
      SafeRunDrift(before, t);
      DriftIsTidy(SafeRun(before, t), |before|, t, Excess(before, t));
      CarefulStep(SafeRun(before, t), op, t, Grants(before, t), Grants(ops, t), ids, Excess(before, t), |before|);
    }
  }

  lemma DriftIsTidy(s: SideState, n: nat, t: real, excess: real)
    requires Drift(s, n, t, excess)
    ensures DistinctIds(s.open) && ClosedAreUsedUp(s.closed, t)
    ensures -(Gap(s).unconfirmed + Gap(s).ready) <= Times(n, t) + t + t + Times(|s.closed|, t) + Times(|s.closed|, t)
  {
    hide Gap;
  }

  lemma NothingAfforded(ids: set<string>, t: real)
    requires 0.0 <= t
    ensures var s := SafeRun([], t);
      Afforded(s, Grants([], t), ids, Excess([], t), 0, t) && LotsAgree(AllLots(s), t)
  {
    var s := SafeRun([], t);
    assert AllLots(s) == [];
    SumOverZero(ids, Lacking(s, Grants([], t)));
  }

  /** What the tolerances add up to over n requests that closed c lots. */
  function Tolerated(n: nat, c: nat, t: real): real {
    3.0 * Times(n, t) + 3.0 * Times(c, t) + 2.0 * t
  }

  lemma LooseBounds(s: SideState, granted: string -> real, ids: set<string>, excess: real, p: string)
    requires p in ids && 0.0 <= excess
    ensures excess <= Loose(s, granted, ids, excess)
    ensures granted(p) - HeldInTotal(s, p) <= Loose(s, granted, ids, excess)
  {
    SumOverAtLeast(ids, Lacking(s, granted), p);
    SumOverNonNegative(ids, Lacking(s, granted));
    HeldOrSlack(s.open, p);
    SlackNonNegative(s.open);
  }

  lemma {:induction false} HeldOrSlack(lots: seq<Lot>, p: string)
    ensures SumBy(lots, KeptFor(p)) - SumBy(lots, HeldBy(p)) <= SumBy(lots, SlackIn)
  {
    if lots != [] {
      HeldIsLess(lots[0].spends, p);
      HeldOrSlack(lots[1..], p);
    }
  }

  lemma SlackNonNegative(lots: seq<Lot>)
    ensures 0.0 <= SumBy(lots, SlackIn)
  {
    forall i | 0 <= i < |lots| ensures 0.0 <= SlackIn(lots[i]) {
      SumByNonNegative(lots[i].spends, UnderIn);
    }
    SumByNonNegative(lots, SlackIn);
  }

  lemma {:induction false} ExcessNonNegative(ops: seq<Op>, t: real)
    ensures 0.0 <= Excess(ops, t)
    decreases |ops|
  {
    hide SafeRun, ConfirmSide, ConfirmScan;
    if ops != [] {
      ExcessNonNegative(ops[..|ops| - 1], t);
    }
  }

  /** Whatever the tolerance, while no payment is confirmed for more than was authorized for it, it holds that much but
      for what the tolerances add up to; so all that is ever confirmed in excess of the lots is within that, linear in
      the requests and the closed lots. */
  lemma CarefulRunsDrift(ops: seq<Op>, t: real, p: string)
    requires 0.0 <= t && Careful(ops, t)
    ensures Reasonable(ops, t)
    ensures var s := SafeRun(ops, t); var bound := Tolerated(|ops|, |s.closed|, t);
      && 0.0 <= Excess(ops, t) <= bound
      && Granted(ops, p, t) - HeldInTotal(s, p) <= bound
      && -Times(|ops|, t) <= Gap(s).spent <= Times(|ops|, t) + bound
  {
    hide SafeRun, Careful, Excess, Granted, Loose, HeldInTotal, LotsAgree, Drift, Gap;
    var ids := (set op | op in ops && (op.Authorize? || op.Pay?) :: op.paymentId) + {p};
    var s, excess := SafeRun(ops, t), Excess(ops, t);
    CarefulRunsAfford(ops, ids, t);
    CarefulIsReasonable(ops, t);
    SafeRunDrift(ops, t);
    DriftIsTidy(s, |ops|, t, excess);
    ExcessNonNegative(ops, t);
    LooseBounds(s, Grants(ops, t), ids, excess, p);
    BoundedDrift(ops, t);
  }

  /** Without a tolerance careful runs exceed nothing: a payment holds at least what was authorized for it, no lot is
      closed, and the balances are exactly what the lots say. */
  lemma CarefulRunsAreExact(ops: seq<Op>, t: real, p: string)
    requires t == 0.0 && Careful(ops, t)
    ensures var s := SafeRun(ops, t);
      && Excess(ops, t) == 0.0 && Granted(ops, p, t) <= HeldInTotal(s, p)
      && s.closed == [] && LotsAgree(AllLots(s), t) && Balances(s) == LotAmounts(AllLots(s))
  {
    hide SafeRun, Careful, Excess, Granted, HeldInTotal, LotAmounts, Drift, Afforded, Reasonable;
    var s := SafeRun(ops, t);
    CarefulRunsDrift(ops, t, p);
    TimesOfNothing(|ops|, t);
    TimesOfNothing(|s.closed|, t);
    NoToleranceNoDrift(ops, t);
    CarefulRunsAfford(ops, set op | op in ops && (op.Authorize? || op.Pay?) :: op.paymentId, t);
    SafeRunDrift(ops, t);
    DriftIsTidy(s, |ops|, t, Excess(ops, t));
    NoneClosed(s, t);
  }

  lemma NoneClosed(s: SideState, t: real)
    requires t == 0.0 && LotsAgree(AllLots(s), t) && ClosedAreUsedUp(s.closed, t)
    ensures s.closed == []
  {
    FirstIsIn(s.closed);
    assert forall l: Lot :: !(LotAgrees(l, t) && UsedUp(l, t));
    assert forall l :: l in s.closed ==> l in AllLots(s);
  }

  lemma FirstIsIn(lots: seq<Lot>)
    ensures lots == [] || exists l :: l in lots
  {
    if lots != [] {
      assert lots[0] in lots;
    }
  }
}
