/** What a fill of one index order answers, said of its inputs alone: how much is filled, which lots are handed out,
    what becomes of the order, and why nothing is filled. */
module BatchFillAnswers {
  import opened Common
  import opened BatchLots
  import opened BatchFillSpec
  import opened BatchFillTheory

  // The status

  /** After a fill an order is fully mintable exactly when it spent more than the fill threshold of its collateral,
      from whichever status it came, and the order manager is told the same status. */
  lemma StatusExactly(positions: Positions, e: Engagement, o: SolverOrder, now: int, th: Thresholds)
    ensures var f := FillIndexOrder(positions, e, o, now, th);
      && (f.request.None? ==> f.order.status == o.status && !f.mintable)
      && (f.request.Some? ==>
            var rate := f.request.value.rate;
            && f.request.value.status == f.order.status
            && (f.order.status.FullyMintable? <==> th.fill < rate)
            && (f.order.status.PartlyMintable? <==> rate <= th.fill && (o.status.PartlyMintable? || th.mint < rate))
            && (f.order.status.Engaged? <==> rate <= th.fill && o.status.Engaged? && rate <= th.mint)
            && (f.mintable <==> o.status.Engaged? && th.mint < rate))
  {
    hide BasketRate, AllocateBasket;
  }

  // How much is filled

  /** So much of the index is within the engagement, and of every asset within the order's share of the position and
      within its contribution. */
  ghost predicate Allows(positions: Positions, side: Side, e: Engagement, filled: real) {
    filled <= e.quantity && forall a :: a in e.basket ==> AllowsAsset(positions, side, e, a, filled)
  }

  ghost predicate AllowsAsset(positions: Positions, side: Side, e: Engagement, a: BasketAsset, filled: real) {
    var k := AssetKey(a.symbol, side);
    && k in positions && a.symbol in e.fractions && a.symbol in e.contributions
    && a.quantity * filled <= positions[k].quantity * e.fractions[a.symbol]
    && a.quantity * filled <= e.contributions[a.symbol]
  }

  predicate Positive(e: Engagement) {
    0.0 < e.quantity && forall a :: a in e.basket ==> 0.0 < a.quantity
  }

  /** Some asset of the basket sets the rate. */
  lemma {:induction false} LowestRate(basket: seq<BasketAsset>, side: Side, positions: Positions, e: Engagement)
    returns (a: BasketAsset)
    requires BasketRate(basket, side, positions, e).Rate?
    ensures a in basket && AssetRate(a, side, positions, e) == BasketRate(basket, side, positions, e)
  {
    hide AssetRate;
    a := basket[0];
    if |basket| > 1 {
      var b := LowestRate(basket[1..], side, positions, e);
      if BasketRate(basket[1..], side, positions, e).r < AssetRate(a, side, positions, e).r {
        a := b;
      }
    }
  }

  lemma CancelFactor(q: real, x: real, y: real)
    requires 0.0 < q && q * x <= q * y
    ensures x <= y
  {
    assert 0.0 <= q * (y - x);
    assert q * (y - x) / q == y - x;
  }

  lemma RateIsReached(limit: real, q: real, units: real, rate: real)
    requires 0.0 < q * units && rate == limit / (q * units)
    ensures q * (rate * units) == limit
  {
    assert rate * (q * units) == limit;
  }

  lemma Product(x: real, y: real)
    requires 0.0 < x && 0.0 < y
    ensures 0.0 < x * y
  {
  }

  lemma AssetRateAllows(positions: Positions, side: Side, e: Engagement, a: BasketAsset, rate: real, ra: real)
    requires 0.0 < a.quantity * e.quantity && AssetRate(a, side, positions, e) == Rate(ra) && rate <= ra
    ensures AllowsAsset(positions, side, e, a, FilledAt(e, rate))
  {
    hide FilledAt;
    var share := positions[AssetKey(a.symbol, side)].quantity * e.fractions[a.symbol];
    var limit := Min(share, e.contributions[a.symbol]);
    DivisionBounds(limit, limit, a.quantity * e.quantity);
    hide AssetRate;
    ScaledDown(e, rate, ra, a.quantity, limit);
  }

  lemma RateAllows(positions: Positions, side: Side, e: Engagement, a: BasketAsset, rate: real)
    requires Positive(e) && a in e.basket && BasketRate(e.basket, side, positions, e) == Rate(rate)
    ensures AllowsAsset(positions, side, e, a, FilledAt(e, rate))
  {
    hide BasketRate, AssetRate, AllowsAsset, FilledAt;
    BasketRateIsLowest(e.basket, side, positions, e, rate, a);
    Product(a.quantity, e.quantity);
    AssetRateAllows(positions, side, e, a, rate, AssetRate(a, side, positions, e).r);
  }

  lemma AssetRateIsEnough(
      positions: Positions, side: Side, e: Engagement, a: BasketAsset, rate: real, filled: real)
    requires 0.0 < a.quantity && 0.0 < a.quantity * e.quantity && AllowsAsset(positions, side, e, a, filled)
    requires AssetRate(a, side, positions, e) == Rate(rate)
    ensures filled <= rate * e.quantity
  {
    var limit := Min(positions[AssetKey(a.symbol, side)].quantity * e.fractions[a.symbol], e.contributions[a.symbol]);
    RateIsReached(limit, a.quantity, e.quantity, rate);
    CancelFactor(a.quantity, filled, rate * e.quantity);
  }

  lemma RateIsEnough(positions: Positions, side: Side, e: Engagement, rate: real, filled: real)
    requires Positive(e) && BasketRate(e.basket, side, positions, e) == Rate(rate)
    requires Allows(positions, side, e, filled)
    ensures filled <= FilledAt(e, rate)
  {
    hide BasketRate;
    if rate <= 1.0 {
      var a := LowestRate(e.basket, side, positions, e);
      assert AllowsAsset(positions, side, e, a, filled);
      Product(a.quantity, e.quantity);
      AssetRateIsEnough(positions, side, e, a, rate, filled);
    }
  }

  lemma CappedIsWhole(e: Engagement, rate: real)
    requires 0.0 < e.quantity
    ensures FilledAt(e, rate) <= e.quantity
  {
    assert Capped(rate) * e.quantity <= 1.0 * e.quantity;
  }

  /** A fill fills the greatest quantity that the engagement, the shares and the contributions allow. It comes to
      nothing only when no allowed quantity exceeds the filled one by the threshold or more. */
  lemma FillIsGreatest(
      positions: Positions, e: Engagement, o: SolverOrder, now: int, th: Thresholds, filled: real)
    requires Positive(e)
    ensures var f := FillIndexOrder(positions, e, o, now, th);
      && (f.request.Some? ==>
            && Allows(positions, o.side, e, f.engagement.filled)
            && (Allows(positions, o.side, e, filled) ==> filled <= f.engagement.filled)
            && f.request.value.quantity == f.engagement.filled - e.filled >= th.zero)
      && (f.request.None? && f.error.None? && !o.status.FullyMintable? && Allows(positions, o.side, e, filled) ==>
            filled - e.filled < th.zero)
  {
    hide AllocateBasket, FilledAt;
    var rate := BasketRate(e.basket, o.side, positions, e);
    if rate.Rate? {
      CappedIsWhole(e, rate.r);
      forall a | a in e.basket ensures AllowsAsset(positions, o.side, e, a, FilledAt(e, rate.r)) {
        RateAllows(positions, o.side, e, a, rate.r);
      }
      if Allows(positions, o.side, e, filled) {
        RateIsEnough(positions, o.side, e, rate.r, filled);
      }
    }
  }

  // Which lots are handed out

  function Cleared(lots: seq<BatchLot>): seq<BatchLot> {
    seq(|lots|, i requires 0 <= i < |lots| => lots[i].(remaining := 0.0))
  }

  /** `given` is so much of `lot`, with its share of the fee. */
  predicate PartOf(given: AssetLot, lot: BatchLot, symbol: string, quantity: real) {
    && given.lotId == lot.lotId && given.symbol == symbol && given.price == lot.price
    && given.original == lot.original && given.remaining == lot.remaining && given.originalFee == lot.fee
    && given.quantity == quantity && given.feeShare * lot.original == lot.fee * quantity
  }

  /** The first n open lots are handed out whole, and of the next one what is then still missing. */
  ghost predicate FirstOut(
      open: seq<BatchLot>, open': seq<BatchLot>, given: seq<AssetLot>, symbol: string, need: real, t: real, n: nat)
  {
    && n <= |open|
    && (forall i :: 0 < i <= n ==> -t < need - Available(open[..i]))
    && |given| == (if n < |open| then n + 1 else n)
    && (forall i :: 0 <= i < n ==> PartOf(given[i], open[i], symbol, open[i].remaining))
    && (n < |open| ==>
          var missing := need - Available(open[..n]);
          && missing - open[n].remaining <= -t
          && PartOf(given[n], open[n], symbol, missing)
          && open' == [open[n].(remaining := open[n].remaining - missing)] + open[n + 1..])
    && (n == |open| ==> open' == [])
  }

  lemma PartBuilt(lot: BatchLot, symbol: string, quantity: real)
    requires lot.original > 0.0
    ensures PartOf(BuildAssetLot(lot, symbol, quantity), lot, symbol, quantity)
  {
    var fraction := quantity / lot.original;
    assert (lot.fee * fraction) * lot.original == lot.fee * (fraction * lot.original);
  }

  lemma AvailableFirst(open: seq<BatchLot>, i: nat)
    requires 0 < i <= |open|
    ensures Available(open[..i]) == open[0].remaining + Available(open[1..][..i - 1])
  {
    assert open[..i][1..] == open[1..][..i - 1];
  }

  lemma AvailableRest(open: seq<BatchLot>)
    requires open != []
    ensures Available(open) == open[0].remaining + Available(open[1..])
  {
  }

  lemma NoneAvailable(open: seq<BatchLot>)
    ensures Available(open[..0]) == 0.0
  {
  }

  lemma PartlyOut(open: seq<BatchLot>, symbol: string, need: real, t: real)
    requires open != [] && open[0].original > 0.0 && need - open[0].remaining <= -t
    ensures FirstOut(open, [open[0].(remaining := open[0].remaining - need)] + open[1..],
                     [BuildAssetLot(open[0], symbol, need)], symbol, need, t, 0)
  {
    hide PartOf, BuildAssetLot;
    PartBuilt(open[0], symbol, need);
    NoneAvailable(open);
  }

  /** Lots leave first in, first out: every one that is handed out whole is closed. */
  lemma {:induction false} FirstInFirstOut(
      open: seq<BatchLot>, closed: seq<BatchLot>, symbol: string, need: real, t: real)
    returns (n: nat)
    requires Usable(open)
    ensures var a := Allocate(open, closed, symbol, need, t);
      && FirstOut(open, a.open, a.lots, symbol, need, t, n)
      && a.closed == closed + Cleared(open[..n])
      && a.left == if n < |open| then 0.0 else need - Available(open)
  {
    n := 0;
    if open == [] {
      NoneCleared(open, closed);
    } else {
      hide FirstOut, BuildAssetLot, Available, Cleared;
      AvailableRest(open);
      assert open[0].original > 0.0;
      var rest := need - open[0].remaining;
      if -t < rest {
        var closed' := closed + [open[0].(remaining := 0.0)];
        var m := FirstInFirstOut(open[1..], closed', symbol, rest, t);
        n := m + 1;
        FirstOutBound(open[1..], Allocate(open[1..], closed', symbol, rest, t), symbol, rest, t, m);
        FirstOutAfter(open, Allocate(open[1..], closed', symbol, rest, t), symbol, need, t, m);
        ClearedMore(open, closed, m);
      } else {
        PartlyOut(open, symbol, need, t);
        NoneCleared(open, closed);
      }
    }
  }

  lemma ClearedMore(open: seq<BatchLot>, closed: seq<BatchLot>, m: nat)
    requires m < |open|
    ensures closed + Cleared(open[..m + 1]) == closed + [open[0].(remaining := 0.0)] + Cleared(open[1..][..m])
  {
    assert open[..m + 1] == [open[0]] + open[1..][..m];
  }

  lemma NoneCleared(open: seq<BatchLot>, closed: seq<BatchLot>)
    ensures closed + Cleared(open[..0]) == closed
  {
  }

  lemma FirstOutBound(open: seq<BatchLot>, a: Allocation, symbol: string, need: real, t: real, n: nat)
    requires FirstOut(open, a.open, a.lots, symbol, need, t, n)
    ensures n <= |open|
  {
  }

  lemma FirstOutAfter(open: seq<BatchLot>, a: Allocation, symbol: string, need: real, t: real, m: nat)
    requires Usable(open) && open != [] && -t < need - open[0].remaining
    requires FirstOut(open[1..], a.open, a.lots, symbol, need - open[0].remaining, t, m)
    ensures FirstOut(open, a.open, [BuildAssetLot(open[0], symbol, open[0].remaining)] + a.lots, symbol, need, t, m + 1)
  {
    hide PartOf, BuildAssetLot, Available;
    var given := [BuildAssetLot(open[0], symbol, open[0].remaining)] + a.lots;
    PartBuilt(open[0], symbol, open[0].remaining);
    forall i | 0 < i <= m + 1 ensures -t < need - Available(open[..i]) {
      AvailableFirst(open, i);
      if i == 1 {
        NoneAvailable(open[1..]);
      } else {
        assert -t < need - open[0].remaining - Available(open[1..][..i - 1]);
      }
    }
    forall i | 0 <= i < m + 1 ensures PartOf(given[i], open[i], symbol, open[i].remaining) {
      if i > 0 {
        assert PartOf(a.lots[i - 1], open[1..][i - 1], symbol, open[1..][i - 1].remaining);
      }
    }
    AvailableFirst(open, m + 1);
  }

  /** What became of one position: lots went first in, first out, nothing else changed. */
  ghost predicate HandsOut(p: Position, p': Position, given: seq<AssetLot>, symbol: string, need: real, t: real) {
    && p' == p.(openLots := p'.openLots, closedLots := p'.closedLots)
    && exists n: nat :: FirstOut(p.openLots, p'.openLots, given, symbol, need, t, n)
         && p'.closedLots == p.closedLots + Cleared(p.openLots[..n])
  }

  /** The given lots fall into consecutive parts, one for each asset of the basket in turn. */
  ghost predicate CutByAsset(
      basket: seq<BasketAsset>, side: Side, positions: Positions, positions': Positions, given: seq<AssetLot>,
      units: real, t: real, cuts: seq<nat>)
  {
    && |cuts| == |basket| + 1 && cuts[0] == 0 && cuts[|basket|] == |given|
    && forall i :: 0 <= i < |basket| ==> CutsAsset(basket[i], side, positions, positions', given, units, t, cuts, i)
  }

  ghost predicate CutsAsset(
      a: BasketAsset, side: Side, positions: Positions, positions': Positions, given: seq<AssetLot>, units: real,
      t: real, cuts: seq<nat>, i: nat)
    requires i + 1 < |cuts|
  {
    && cuts[i] <= cuts[i + 1] <= |given|
    && GivesAsset(a, side, positions, positions', given[cuts[i]..cuts[i + 1]], units, t)
  }

  ghost predicate GivesAsset(
      a: BasketAsset, side: Side, positions: Positions, positions': Positions, given: seq<AssetLot>, units: real,
      t: real)
  {
    var k := AssetKey(a.symbol, side);
    && k in positions && k in positions'
    && HandsOut(positions[k], positions'[k], given, a.symbol, Asked(a, units), t)
  }

  lemma FirstGives(a: BasketAsset, side: Side, positions: Positions, units: real, t: real)
    requires AssetKey(a.symbol, side) in positions && UsablePositions(positions)
    ensures var k := AssetKey(a.symbol, side); var p := positions[k];
      var m := Allocate(p.openLots, p.closedLots, a.symbol, Asked(a, units), t);
      && m.ok
      && GivesAsset(a, side, positions, AfterFirst(a, side, positions, units, t), m.lots, units, t)
  {
    var p := positions[AssetKey(a.symbol, side)];
    hide Allocate, Asked;
    FirstHandsOut(p, a.symbol, Asked(a, units), t);
    hide HandsOut;
  }

  lemma FirstHandsOut(p: Position, symbol: string, need: real, t: real)
    requires Usable(p.openLots)
    ensures var m := Allocate(p.openLots, p.closedLots, symbol, need, t);
      m.ok && HandsOut(p, p.(openLots := m.open, closedLots := m.closed), m.lots, symbol, need, t)
  {
    AllocationConserves(p.openLots, p.closedLots, symbol, need, t);
    hide FirstOut, Allocate, Cleared;
    var n := FirstInFirstOut(p.openLots, p.closedLots, symbol, need, t);
  }

  function Shifted(cuts: seq<nat>, n: nat): seq<nat> {
    [0] + seq(|cuts|, i requires 0 <= i < |cuts| => cuts[i] + n)
  }

  lemma SliceOfLater(mine: seq<AssetLot>, rest: seq<AssetLot>, cuts: seq<nat>, i: nat)
    requires i + 1 < |cuts| && cuts[i] <= cuts[i + 1] <= |rest|
    ensures var cuts' := Shifted(cuts, |mine|);
      && cuts'[i + 1] <= cuts'[i + 2] <= |mine + rest|
      && (mine + rest)[cuts'[i + 1]..cuts'[i + 2]] == rest[cuts[i]..cuts[i + 1]]
  {
  }

  lemma LaterCut(
      a: BasketAsset, side: Side, positions: Positions, first: Positions, positions': Positions, k: AssetKey,
      mine: seq<AssetLot>, rest: seq<AssetLot>, units: real, t: real, cuts: seq<nat>, i: nat)
    requires k in first && first == positions[k := first[k]] && AssetKey(a.symbol, side) != k && i + 1 < |cuts|
    requires CutsAsset(a, side, first, positions', rest, units, t, cuts, i)
    ensures CutsAsset(a, side, positions, positions', mine + rest, units, t, Shifted(cuts, |mine|), i + 1)
  {
    hide HandsOut;
    SliceOfLater(mine, rest, cuts, i);
  }

  lemma FirstCut(
      a: BasketAsset, side: Side, positions: Positions, first: Positions, positions': Positions,
      mine: seq<AssetLot>, rest: seq<AssetLot>, units: real, t: real, cuts: seq<nat>)
    requires var k := AssetKey(a.symbol, side); k in first && k in positions' && positions'[k] == first[k]
    requires GivesAsset(a, side, positions, first, mine, units, t)
    requires 0 < |cuts| && cuts[0] == 0
    ensures CutsAsset(a, side, positions, positions', mine + rest, units, t, Shifted(cuts, |mine|), 0)
  {
    hide HandsOut;
    var cuts' := Shifted(cuts, |mine|);
    assert cuts'[0] == 0 && cuts'[1] == |mine| <= |mine + rest|;
    assert (mine + rest)[cuts'[0]..cuts'[1]] == mine;
  }

  lemma LaterCuts(
      basket: seq<BasketAsset>, side: Side, positions: Positions, first: Positions, positions': Positions,
      mine: seq<AssetLot>, rest: seq<AssetLot>, units: real, t: real, cuts: seq<nat>)
    requires BasketOk(basket) && basket != [] && first.Keys == positions.Keys == positions'.Keys
    requires var k := AssetKey(basket[0].symbol, side);
      k in first && first == positions[k := first[k]] && positions'[k] == first[k]
    requires GivesAsset(basket[0], side, positions, first, mine, units, t)
    requires CutByAsset(basket[1..], side, first, positions', rest, units, t, cuts)
    ensures CutByAsset(basket, side, positions, positions', mine + rest, units, t, Shifted(cuts, |mine|))
  {
    hide CutsAsset, GivesAsset;
    forall i: nat | i < |basket|
      ensures CutsAsset(basket[i], side, positions, positions', mine + rest, units, t, Shifted(cuts, |mine|), i)
    {
      if i == 0 {
        FirstCut(basket[0], side, positions, first, positions', mine, rest, units, t, cuts);
      } else {
        assert basket[i] == basket[1..][i - 1] && basket[i].symbol != basket[0].symbol;
        LaterCut(basket[i], side, positions, first, positions', AssetKey(basket[0].symbol, side), mine, rest, units, t,
                 cuts, i - 1);
      }
    }
  }

  /** What handing out a basket does, by its first asset and the others. */
  lemma BasketStep(basket: seq<BasketAsset>, side: Side, positions: Positions, units: real, t: real)
    requires BasketOk(basket) && UsablePositions(positions) && 0.0 <= units && 0.0 <= t && basket != []
    requires AllocateBasket(basket, side, positions, units, t).error.None?
    ensures BasketOk(basket[1..]) && AssetKey(basket[0].symbol, side) in positions
    ensures var k := AssetKey(basket[0].symbol, side); var p := positions[k];
      var m := Allocate(p.openLots, p.closedLots, basket[0].symbol, Asked(basket[0], units), t);
      var first := AfterFirst(basket[0], side, positions, units, t);
      var b := AllocateBasket(basket, side, positions, units, t);
      var rest := AllocateBasket(basket[1..], side, first, units, t);
      && m.ok && UsablePositions(first) && rest.error.None?
      && b == rest.(lots := m.lots + rest.lots, spent := SumBy(m.lots, CostOf) + rest.spent)
  {
    assert basket[0] in basket;
    hide Allocate, UsablePositions;
    FirstAllocation(basket[0], side, positions, units, t);
    RestIsOk(basket);
  }

  lemma RestKeepsFirst(basket: seq<BasketAsset>, side: Side, positions: Positions, units: real, t: real)
    requires BasketOk(basket) && basket != [] && AssetKey(basket[0].symbol, side) in positions
    ensures var k := AssetKey(basket[0].symbol, side); var first := AfterFirst(basket[0], side, positions, units, t);
      var rest := AllocateBasket(basket[1..], side, first, units, t);
      && k in first && k in rest.positions
      && rest.positions.Keys == first.Keys == positions.Keys
      && first == positions[k := first[k]] && rest.positions[k] == first[k]
  {
    hide AllocateBasket, Allocate;
    RestIsOk(basket);
    var k, first := AssetKey(basket[0].symbol, side), AfterFirst(basket[0], side, positions, units, t);
    KeysAreKept(basket[1..], side, first, units, t);
    KeyIsUnused(basket[1..], side, first, units, t, k);
  }

  ghost predicate HandsOutBasket(
      basket: seq<BasketAsset>, side: Side, positions: Positions, b: BasketAllocation, units: real, t: real,
      cuts: seq<nat>)
  {
    CutByAsset(basket, side, positions, b.positions, b.lots, units, t, cuts) && b.spent == SumBy(b.lots, CostOf)
  }

  lemma BasketHandsOutMore(
      basket: seq<BasketAsset>, side: Side, positions: Positions, units: real, t: real, later: seq<nat>)
    returns (cuts: seq<nat>)
    requires BasketOk(basket) && UsablePositions(positions) && 0.0 <= units && 0.0 <= t && basket != []
    requires AllocateBasket(basket, side, positions, units, t).error.None?
    requires AssetKey(basket[0].symbol, side) in positions
    requires var first := AfterFirst(basket[0], side, positions, units, t);
      HandsOutBasket(basket[1..], side, first, AllocateBasket(basket[1..], side, first, units, t), units, t, later)
    ensures HandsOutBasket(basket, side, positions, AllocateBasket(basket, side, positions, units, t), units, t, cuts)
  {
    hide AllocateBasket, Allocate, UsablePositions, CutByAsset, AfterFirst, GivesAsset, Asked;
    BasketStep(basket, side, positions, units, t);
    FirstGives(basket[0], side, positions, units, t);
    RestKeepsFirst(basket, side, positions, units, t);
    var k := AssetKey(basket[0].symbol, side);
    var m := Allocate(positions[k].openLots, positions[k].closedLots, k.symbol, Asked(basket[0], units), t);
    var first := AfterFirst(basket[0], side, positions, units, t);
    var rest := AllocateBasket(basket[1..], side, first, units, t);
    LaterCuts(basket, side, positions, first, rest.positions, m.lots, rest.lots, units, t, later);
    cuts := Shifted(later, |m.lots|);
    SumByAppend(m.lots, rest.lots, CostOf);
  }

  /** Every asset of the basket is handed out of its own position, first in, first out, and nothing else changes. */
  lemma {:induction false} BasketHandsOut(
      basket: seq<BasketAsset>, side: Side, positions: Positions, units: real, t: real)
    returns (cuts: seq<nat>)
    requires BasketOk(basket) && UsablePositions(positions) && 0.0 <= units && 0.0 <= t
    requires AllocateBasket(basket, side, positions, units, t).error.None?
    ensures HandsOutBasket(basket, side, positions, AllocateBasket(basket, side, positions, units, t), units, t, cuts)
  {
    if basket == [] {
      cuts := [0];
    } else {
      hide AllocateBasket, UsablePositions, HandsOutBasket, AfterFirst;
      BasketStep(basket, side, positions, units, t);
      var later := BasketHandsOut(basket[1..], side, AfterFirst(basket[0], side, positions, units, t), units, t);
      cuts := BasketHandsOutMore(basket, side, positions, units, t, later);
    }
  }

  lemma RestIsOk(basket: seq<BasketAsset>)
    requires BasketOk(basket) && basket != []
    ensures BasketOk(basket[1..]) && forall a :: a in basket[1..] ==> a.symbol != basket[0].symbol
  {
    assert forall i :: 0 <= i < |basket[1..]| ==> basket[1..][i] == basket[i + 1];
  }

  /** The order after a fill, and what the order manager is told of it. */
  ghost predicate Charged(o: SolverOrder, o': SolverOrder, r: FillRequest, given: seq<AssetLot>, now: int) {
    && o' == o.(filled := o.filled + r.quantity, engaged := o.engaged - r.spent, spent := o.spent + r.spent,
                lots := o.lots + given, timestamp := now, status := o'.status)
    && r.spent == SumBy(given, CostOf)
    && r.rate * (o'.spent + (o'.remaining + o'.engaged)) == o'.spent
  }

  ghost predicate OthersKept(basket: seq<BasketAsset>, side: Side, positions: Positions, positions': Positions) {
    && positions'.Keys == positions.Keys
    && forall k :: k in positions && (forall a :: a in basket ==> AssetKey(a.symbol, side) != k) ==>
         positions'[k] == positions[k]
  }

  lemma BasketKeepsOthers(basket: seq<BasketAsset>, side: Side, positions: Positions, units: real, t: real)
    ensures OthersKept(basket, side, positions, AllocateBasket(basket, side, positions, units, t).positions)
  {
    KeysAreKept(basket, side, positions, units, t);
    hide AllocateBasket;
    forall k | k in positions && (forall a :: a in basket ==> AssetKey(a.symbol, side) != k)
      ensures AllocateBasket(basket, side, positions, units, t).positions[k] == positions[k]
    {
      KeyIsUnused(basket, side, positions, units, t, k);
    }
  }

  lemma DivisionBack(x: real, y: real)
    requires y != 0.0
    ensures x / y * y == x
  {
  }

  /** A filled order: what was asked of the positions, and what becomes of the order. */
  lemma FilledOf(positions: Positions, e: Engagement, o: SolverOrder, now: int, th: Thresholds)
    requires FillIndexOrder(positions, e, o, now, th).request.Some?
    ensures var f := FillIndexOrder(positions, e, o, now, th); var r := f.request.value;
      var b := AllocateBasket(e.basket, o.side, positions, r.quantity, th.zero);
      && th.zero <= r.quantity
      && b.error.None? && f.positions == b.positions
      && f.engagement == e.(filled := e.filled + r.quantity)
      && (r.spent == SumBy(b.lots, CostOf) ==> Charged(o, f.order, r, b.lots, now))
      && r.order == e.order && f.error.None? && r.spent == b.spent
  {
    hide AllocateBasket, FilledAt, BasketRate, Promoted;
    var f := FillIndexOrder(positions, e, o, now, th);
    DivisionBack(f.order.spent, TotalCollateral(f.order));
  }

  /** A fill hands out lots for the quantity filled, charges the order what they cost, and tells the order manager
      just that. */
  lemma FillHandsOut(positions: Positions, e: Engagement, o: SolverOrder, now: int, th: Thresholds)
    returns (given: seq<AssetLot>, cuts: seq<nat>)
    requires BasketOk(e.basket) && UsablePositions(positions) && 0.0 <= th.zero
    requires FillIndexOrder(positions, e, o, now, th).request.Some?
    ensures var f := FillIndexOrder(positions, e, o, now, th); var r := f.request.value;
      && CutByAsset(e.basket, o.side, positions, f.positions, given, r.quantity, th.zero, cuts)
      && OthersKept(e.basket, o.side, positions, f.positions)
      && f.engagement == e.(filled := e.filled + r.quantity)
      && Charged(o, f.order, r, given, now)
      && r.order == e.order && f.error.None?
  {
    hide CutByAsset, UsablePositions, BasketOk, Charged, OthersKept, FillIndexOrder, AllocateBasket;
    FilledOf(positions, e, o, now, th);
    var units := FillIndexOrder(positions, e, o, now, th).request.value.quantity;
    given := AllocateBasket(e.basket, o.side, positions, units, th.zero).lots;
    cuts := BasketHandsOut(e.basket, o.side, positions, units, th.zero);
    BasketKeepsOthers(e.basket, o.side, positions, units, th.zero);
  }

  // Why nothing is filled

  /** The asset has a position, a fraction and a contribution, and the engagement needs some of it. */
  predicate HasTerms(a: BasketAsset, side: Side, positions: Positions, e: Engagement) {
    && AssetKey(a.symbol, side) in positions && a.symbol in e.fractions && a.symbol in e.contributions
    && a.quantity * e.quantity != 0.0
  }

  /** The first term that is missing names the error. */
  predicate NamesGap(error: FillError, a: BasketAsset, side: Side, positions: Positions, e: Engagement) {
    var k := AssetKey(a.symbol, side);
    && (error.MissingPosition? <==> k !in positions)
    && (error.MissingFraction? <==> k in positions && a.symbol !in e.fractions)
    && (error.MissingContribution? <==> k in positions && a.symbol in e.fractions && a.symbol !in e.contributions)
    && (error.MathProblem? <==> k in positions && a.symbol in e.fractions && a.symbol in e.contributions)
  }

  lemma {:induction false} FirstGap(basket: seq<BasketAsset>, side: Side, positions: Positions, e: Engagement)
    returns (i: nat)
    ensures i <= |basket| && forall j :: 0 <= j < i ==> HasTerms(basket[j], side, positions, e)
    ensures var r := BasketRate(basket, side, positions, e);
      && (r.Rate? <==> i == |basket| > 0)
      && (basket == [] ==> r == NoRate(EmptyBasket))
      && (i < |basket| ==> !HasTerms(basket[i], side, positions, e) && NamesGap(r.error, basket[i], side, positions, e))
  {
    i := 0;
    if basket != [] && HasTerms(basket[0], side, positions, e) {
      var j := FirstGap(basket[1..], side, positions, e);
      i := j + 1;
    }
  }

  /** An order that was not filled stays as it was. An engaged or partly mintable order misses its fill by the first
      asset of its basket that lacks a term; with all terms an error is a shortage, a lot of no quantity, or an order
      left without any collateral. */
  lemma UnfilledExactly(positions: Positions, e: Engagement, o: SolverOrder, now: int, th: Thresholds)
    returns (i: nat)
    ensures var f := FillIndexOrder(positions, e, o, now, th);
      && (f.request.None? && f.error.None? ==> f == Filled(positions, e, o, false, None, None))
      && (f.request.Some? ==> f.error.None? && f.order.spent + f.order.remaining + f.order.engaged != 0.0)
      && (o.status.FullyMintable? ==> f.request.None? && f.error.None?)
      && (f.error == Some(InvalidState) <==>
            !o.status.Engaged? && !o.status.PartlyMintable? && !o.status.FullyMintable?)
      && (o.status.Engaged? || o.status.PartlyMintable? ==>
            && i <= |e.basket| && (forall j :: 0 <= j < i ==> HasTerms(e.basket[j], o.side, positions, e))
            && (i < |e.basket| ==>
                  && !HasTerms(e.basket[i], o.side, positions, e)
                  && f.error.Some? && NamesGap(f.error.value, e.basket[i], o.side, positions, e)
                  && f == Filled(positions, e, o, false, None, f.error))
            && (e.basket == [] ==> f == Filled(positions, e, o, false, None, Some(EmptyBasket)))
            && (i == |e.basket| > 0 && f.error.Some? ==> f.error.value.CouldntAllocate? || f.error.value.MathProblem?))
  {
    i := FirstGap(e.basket, o.side, positions, e);
    var rate := BasketRate(e.basket, o.side, positions, e);
    hide BasketRate, NamesGap, FilledAt;
    if rate.Rate? {
      var delta := FilledAt(e, rate.r) - e.filled;
      BasketErrors(e.basket, o.side, positions, delta, th.zero);
      hide AllocateBasket;
    }
  }

  lemma {:induction false} BasketErrors(
      basket: seq<BasketAsset>, side: Side, positions: Positions, units: real, t: real)
    requires HasAll(basket, side, positions)
    ensures var error := AllocateBasket(basket, side, positions, units, t).error;
      error.Some? ==> error.value.CouldntAllocate? || error.value.MathProblem?
  {
    if basket != [] {
      assert basket[0] in basket;
      BasketErrors(basket[1..], side, AfterFirst(basket[0], side, positions, units, t), units, t);
    }
  }
}
