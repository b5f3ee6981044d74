/** When allocation runs short: exactly, and never in a fair batch without a tolerance. */
module BatchFillTheory {
  import opened Common
  import opened BatchLots
  import opened BatchFillSpec

  // Baskets

  ghost predicate BasketOk(basket: seq<BasketAsset>) {
    && (forall i, j :: 0 <= i < j < |basket| ==> basket[i].symbol != basket[j].symbol)
    && (forall a :: a in basket ==> a.quantity >= 0.0)
  }

  /** What `units` of the index need at a key. */
  function Needed(basket: seq<BasketAsset>, side: Side, k: AssetKey, units: real): real {
    if basket == [] then 0.0
    else if AssetKey(basket[0].symbol, side) == k then Asked(basket[0], units)
    else Needed(basket[1..], side, k, units)
  }

  lemma {:induction false} NeededMeaning(basket: seq<BasketAsset>, side: Side, k: AssetKey, units: real)
    requires BasketOk(basket)
    ensures forall a :: a in basket && AssetKey(a.symbol, side) == k ==>
      Needed(basket, side, k, units) == a.quantity * units
    ensures (forall a :: a in basket ==> AssetKey(a.symbol, side) != k) ==> Needed(basket, side, k, units) == 0.0
  {
    if basket != [] {
      assert forall i :: 0 <= i < |basket[1..]| ==> basket[1..][i] == basket[i + 1];
      NeededMeaning(basket[1..], side, k, units);
      assert basket[0] in basket;
    }
  }

  lemma {:induction false} NeededAdds(basket: seq<BasketAsset>, side: Side, k: AssetKey, x: real, y: real)
    ensures Needed(basket, side, k, x + y) == Needed(basket, side, k, x) + Needed(basket, side, k, y)
  {
    if basket != [] {
      NeededAdds(basket[1..], side, k, x, y);
      assert basket[0].quantity * (x + y) == basket[0].quantity * x + basket[0].quantity * y;
    }
  }

  /** A position whose lots are short of what is needed by at most `slack`. */
  ghost predicate Covers(p: Position, needed: real, slack: real) {
    Usable(p.openLots) && Available(p.openLots) >= needed - slack
  }

  ghost predicate CoversBasket(
      basket: seq<BasketAsset>, side: Side, positions: Positions, delta: real, slack: real) {
    forall a :: a in basket ==>
      AssetKey(a.symbol, side) in positions && Covers(positions[AssetKey(a.symbol, side)], Asked(a, delta), slack)
  }

  lemma HeadAllocation(p: Position, symbol: string, needed: real, t: real, slack: real)
    requires 0.0 <= needed && 0.0 <= t && 0.0 <= slack && Covers(p, needed, slack)
    ensures var a := Allocate(p.openLots, p.closedLots, symbol, needed, t);
      && a.ok && a.left <= slack && Usable(a.open)
      && Available(a.open) >= Available(p.openLots) - needed - t
  {
    AllocationConserves(p.openLots, p.closedLots, symbol, needed, t);
    AllocationLeft(p.openLots, p.closedLots, symbol, needed, t);
  }

  lemma RestIsCovered(basket: seq<BasketAsset>, side: Side, positions: Positions, p: Position, delta: real, slack: real)
    requires BasketOk(basket) && basket != [] && CoversBasket(basket, side, positions, delta, slack)
    ensures BasketOk(basket[1..])
    ensures CoversBasket(basket[1..], side, positions[AssetKey(basket[0].symbol, side) := p], delta, slack)
  {
    assert forall i :: 0 <= i < |basket[1..]| ==> basket[1..][i] == basket[i + 1];
  }

  /** What a basket's allocation leaves at one key. */
  ghost predicate LeavesAt(b: BasketAllocation, p: Position, k: AssetKey, needed: real, t: real) {
    && k in b.positions
    && b.positions[k].quantity == p.quantity
    && Usable(b.positions[k].openLots)
    && (b.error.None? ==> Available(b.positions[k].openLots) >= Available(p.openLots) - needed - t)
  }

  lemma {:induction false} BasketAllocationAt(
      basket: seq<BasketAsset>, side: Side, positions: Positions, delta: real, t: real, slack: real, k: AssetKey)
    requires BasketOk(basket) && 0.0 <= delta && 0.0 <= t && 0.0 <= slack
    requires k in positions && Usable(positions[k].openLots)
    requires CoversBasket(basket, side, positions, delta, slack)
    ensures var b := AllocateBasket(basket, side, positions, delta, t);
      && b.positions.Keys == positions.Keys
      && LeavesAt(b, positions[k], k, Needed(basket, side, k, delta), t)
      && (b.error.Some? ==> b.error.value.CouldntAllocate? && t < b.error.value.left <= slack)
  {
    hide Allocate, Available, Usable;
    if basket != [] {
      var key := AssetKey(basket[0].symbol, side);
      assert basket[0] in basket;
      var p := positions[key];
      var needed := Asked(basket[0], delta);
      assert 0.0 <= needed;
      hide Asked;
      HeadAllocation(p, key.symbol, needed, t, slack);
      var a := Allocate(p.openLots, p.closedLots, key.symbol, needed, t);
      var p' := p.(openLots := a.open, closedLots := a.closed);
      RestIsCovered(basket, side, positions, p', delta, slack);
      if a.left <= t {
        BasketAllocationAt(basket[1..], side, positions[key := p'], delta, t, slack, k);
        if k == key {
          KeyIsUnused(basket[1..], side, positions[key := p'], delta, t, k);
        }
      }
    }
  }

  /** Keys outside the basket keep their position. */
  lemma {:induction false} KeyIsUnused(
      basket: seq<BasketAsset>, side: Side, positions: Positions, delta: real, t: real, k: AssetKey)
    requires k in positions && forall a :: a in basket ==> AssetKey(a.symbol, side) != k
    ensures var b := AllocateBasket(basket, side, positions, delta, t);
      k in b.positions && b.positions[k] == positions[k]
  {
    if basket != [] {
      assert basket[0] in basket;
      var key := AssetKey(basket[0].symbol, side);
      if key in positions {
        var p := positions[key];
        var a := Allocate(p.openLots, p.closedLots, key.symbol, Asked(basket[0], delta), t);
        if a.ok && a.left <= t {
          KeyIsUnused(basket[1..], side, positions[key := p.(openLots := a.open, closedLots := a.closed)], delta, t, k);
        }
      }
    }
  }

  // The fill rate keeps every order within its share

  lemma {:induction false} BasketRateIsLowest(
      basket: seq<BasketAsset>, side: Side, positions: Positions, e: Engagement, rate: real, a: BasketAsset)
    requires BasketRate(basket, side, positions, e) == Rate(rate) && a in basket
    ensures AssetRate(a, side, positions, e).Rate? && rate <= AssetRate(a, side, positions, e).r
  {
    if |basket| > 1 && a in basket[1..] {
      BasketRateIsLowest(basket[1..], side, positions, e, BasketRate(basket[1..], side, positions, e).r, a);
    }
  }

  lemma DivisionBounds(x: real, limit: real, n: real)
    requires 0.0 < n && x <= limit
    ensures (x / n) * n <= limit
  {
    assert (x / n) * n == x;
  }

  lemma ScaledDown(e: Engagement, rate: real, ra: real, q: real, limit: real)
    requires 0.0 < q * e.quantity && rate <= ra && ra * (q * e.quantity) <= limit
    ensures q * FilledAt(e, rate) <= limit
  {
    var n, m := q * e.quantity, Capped(rate);
    assert m * n <= ra * n;
    assert q * (m * e.quantity) == m * n;
  }

  /** An asset's rate asks for no more than the order's fraction of the position. */
  lemma AssetRateMeaning(a: BasketAsset, side: Side, positions: Positions, e: Engagement)
    requires a.quantity >= 0.0 && 0.0 <= e.quantity && AssetRate(a, side, positions, e).Rate?
    ensures var k := AssetKey(a.symbol, side);
      && k in positions && a.symbol in e.fractions
      && 0.0 < a.quantity * e.quantity
      && AssetRate(a, side, positions, e).r * (a.quantity * e.quantity) <= positions[k].quantity * e.fractions[a.symbol]
  {
    var p := positions[AssetKey(a.symbol, side)].quantity * e.fractions[a.symbol];
    var n := a.quantity * e.quantity;
    assert 0.0 < n;
    DivisionBounds(Min(p, e.contributions[a.symbol]), p, n);
  }

  lemma RateOfAsset(e: Engagement, side: Side, positions: Positions, a: BasketAsset, rate: real) returns (ra: real)
    requires a.quantity >= 0.0 && 0.0 <= e.quantity && a in e.basket
    requires BasketRate(e.basket, side, positions, e) == Rate(rate)
    ensures var k := AssetKey(a.symbol, side);
      && k in positions && a.symbol in e.fractions
      && rate <= ra && 0.0 < a.quantity * e.quantity
      && ra * (a.quantity * e.quantity) <= positions[k].quantity * e.fractions[a.symbol]
  {
    hide AssetRate;
    BasketRateIsLowest(e.basket, side, positions, e, rate, a);
    ra := AssetRate(a, side, positions, e).r;
    AssetRateMeaning(a, side, positions, e);
  }

  /** At the new filled quantity the order takes no more of an asset than its fraction of the position. */
  lemma WithinShare(e: Engagement, side: Side, positions: Positions, a: BasketAsset, rate: real)
    requires a.quantity >= 0.0 && 0.0 <= e.quantity && a in e.basket
    requires BasketRate(e.basket, side, positions, e) == Rate(rate)
    ensures var k := AssetKey(a.symbol, side);
      && k in positions && a.symbol in e.fractions
      && a.quantity * FilledAt(e, rate) <= positions[k].quantity * e.fractions[a.symbol]
  {
    var ra := RateOfAsset(e, side, positions, a, rate);
    ScaledDown(e, rate, ra, a.quantity, positions[AssetKey(a.symbol, side)].quantity * e.fractions[a.symbol]);
  }

  // Fair batches

  /** The fraction of a key's fills that an order may take, zero for an asset outside its basket. */
  function FractionAt(k: AssetKey): Engagement -> real {
    (e: Engagement) =>
      if k.side == e.side && k.symbol in e.fractions && Lists(e.basket, k.symbol) then e.fractions[k.symbol] else 0.0
  }

  predicate Lists(basket: seq<BasketAsset>, symbol: string) {
    exists a :: a in basket && a.symbol == symbol
  }

  /** What an order took of a key so far. */
  function TakenAt(k: AssetKey): Engagement -> real {
    (e: Engagement) => Needed(e.basket, e.side, k, e.filled)
  }

  ghost predicate WithinFraction(e: Engagement, p: Position, k: AssetKey) {
    0.0 <= FractionAt(k)(e) && TakenAt(k)(e) <= p.quantity * FractionAt(k)(e)
  }

  /** The orders' fractions of a key add up to at most one, none took more than its fraction, and the open lots hold
      the rest of the position up to the slack. */
  ghost predicate Fair(engs: seq<Engagement>, p: Position, k: AssetKey, slack: real) {
    && 0.0 <= p.quantity
    && Usable(p.openLots)
    && (forall e :: e in engs ==> WithinFraction(e, p, k))
    && SumBy(engs, FractionAt(k)) <= 1.0
    && Available(p.openLots) >= p.quantity - SumBy(engs, TakenAt(k)) - slack
  }

  lemma {:induction false} TakenByAll(engs: seq<Engagement>, p: Position, k: AssetKey)
    requires forall e :: e in engs ==> WithinFraction(e, p, k)
    ensures SumBy(engs, TakenAt(k)) <= p.quantity * SumBy(engs, FractionAt(k))
  {
    if engs != [] {
      assert WithinFraction(engs[0], p, k);
      TakenByAll(engs[1..], p, k);
      assert p.quantity * SumBy(engs, FractionAt(k))
          == p.quantity * FractionAt(k)(engs[0]) + p.quantity * SumBy(engs[1..], FractionAt(k));
    }
  }

  /** The open lots still hold what is left of an order's fraction, whatever the others took. */
  lemma LotsHoldTheRestOfAShare(engs: seq<Engagement>, i: nat, p: Position, k: AssetKey, slack: real)
    requires i < |engs| && Fair(engs, p, k, slack)
    ensures Available(p.openLots) >= p.quantity * FractionAt(k)(engs[i]) - TakenAt(k)(engs[i]) - slack
  {
    var others := engs[..i] + engs[i + 1..];
    SumByRemove(engs, i, TakenAt(k));
    SumByRemove(engs, i, FractionAt(k));
    TakenByAll(others, p, k);
    var f, g := FractionAt(k)(engs[i]), SumBy(others, FractionAt(k));
    assert g <= 1.0 - f;
    assert p.quantity * g <= p.quantity * (1.0 - f) == p.quantity - p.quantity * f;
  }

  ghost predicate EngagementOk(e: Engagement) {
    BasketOk(e.basket) && 0.0 <= e.quantity
  }

  ghost predicate FairBatch(engs: seq<Engagement>, positions: Positions, slack: real) {
    && (forall e :: e in engs ==> EngagementOk(e))
    && (forall k :: k in positions ==> Fair(engs, positions[k], k, slack))
  }

  /** What a fill is about to ask for is covered by the open lots. */
  lemma AssetIsCovered(engs: seq<Engagement>, i: nat, positions: Positions, slack: real, a: BasketAsset, rate: real)
    requires i < |engs| && FairBatch(engs, positions, slack) && a in engs[i].basket
    requires BasketRate(engs[i].basket, engs[i].side, positions, engs[i]) == Rate(rate)
    ensures var e := engs[i]; var k := AssetKey(a.symbol, e.side);
      k in positions && Covers(positions[k], a.quantity * (FilledAt(e, rate) - e.filled), slack)
  {
    hide BasketRate, FilledAt, Available;
    var e := engs[i];
    assert EngagementOk(e);
    assert a.quantity >= 0.0;
    var k := AssetKey(a.symbol, e.side);
    WithinShare(e, e.side, positions, a, rate);
    assert Lists(e.basket, a.symbol);
    assert Fair(engs, positions[k], k, slack);
    NeededMeaning(e.basket, e.side, k, e.filled);
    LotsHoldTheRestOfAShare(engs, i, positions[k], k, slack);
    DeltaNeeded(a.quantity, FilledAt(e, rate), e.filled);
  }

  lemma DeltaNeeded(q: real, x: real, y: real)
    ensures q * (x - y) == q * x - q * y
  {
  }

  lemma FillIsCovered(engs: seq<Engagement>, i: nat, positions: Positions, slack: real, rate: real)
    requires i < |engs| && FairBatch(engs, positions, slack)
    requires BasketRate(engs[i].basket, engs[i].side, positions, engs[i]) == Rate(rate)
    ensures CoversBasket(engs[i].basket, engs[i].side, positions, FilledAt(engs[i], rate) - engs[i].filled, slack)
  {
    hide BasketRate, FilledAt, Available;
    var e := engs[i];
    forall a | a in e.basket
      ensures AssetKey(a.symbol, e.side) in positions
      ensures Covers(positions[AssetKey(a.symbol, e.side)], a.quantity * (FilledAt(e, rate) - e.filled), slack)
    {
      AssetIsCovered(engs, i, positions, slack, a, rate);
    }
  }

  /** What filling an order would hand out, when it gets that far. */
  ghost predicate Fills(positions: Positions, e: Engagement, o: SolverOrder, th: Thresholds, rate: real) {
    && (o.status.Engaged? || o.status.PartlyMintable?)
    && BasketRate(e.basket, o.side, positions, e) == Rate(rate)
    && FilledAt(e, rate) - e.filled >= th.zero
  }

  lemma RateNeedsABasket(basket: seq<BasketAsset>, side: Side, positions: Positions, e: Engagement)
    requires BasketRate(basket, side, positions, e).Rate?
    ensures basket != []
  {
  }

  /** The allocation of a fill is at most `slack` short at any asset. */
  lemma AllocationIsCovered(
      engs: seq<Engagement>, i: nat, positions: Positions, slack: real, o: SolverOrder, th: Thresholds, rate: real,
      k: AssetKey)
    requires i < |engs| && FairBatch(engs, positions, slack) && o.side == engs[i].side && k in positions
    requires 0.0 <= th.zero && 0.0 <= slack && Fills(positions, engs[i], o, th, rate)
    ensures var e := engs[i]; var delta := FilledAt(e, rate) - e.filled;
      var b := AllocateBasket(e.basket, o.side, positions, delta, th.zero);
      && b.positions.Keys == positions.Keys
      && LeavesAt(b, positions[k], k, Needed(e.basket, e.side, k, delta), th.zero)
      && (b.error.Some? ==> b.error.value.CouldntAllocate? && th.zero < b.error.value.left <= slack)
  {
    hide FilledAt, BasketRate, Covers, Needed, Available, LeavesAt, AllocateBasket;
    var e := engs[i];
    FillIsCovered(engs, i, positions, slack, rate);
    assert EngagementOk(e);
    assert Fair(engs, positions[k], k, slack);
    BasketAllocationAt(e.basket, e.side, positions, FilledAt(e, rate) - e.filled, th.zero, slack, k);
  }

  /** A fill reports insufficient lots only for a shortage above the tolerance, and never beyond the slack. */
  lemma AllocationShortage(
      engs: seq<Engagement>, i: nat, positions: Positions, slack: real, o: SolverOrder, now: int, th: Thresholds)
    requires i < |engs| && FairBatch(engs, positions, slack) && o.side == engs[i].side
    requires 0.0 <= th.zero && 0.0 <= slack
    ensures var f := FillIndexOrder(positions, engs[i], o, now, th);
      f.error.Some? && f.error.value.CouldntAllocate? ==> th.zero < f.error.value.left <= slack
  {
    hide FilledAt, AllocateBasket, Fair;
    var e := engs[i];
    var rate := BasketRate(e.basket, o.side, positions, e);
    if rate.Rate? && Fills(positions, e, o, th, rate.r) {
      RateNeedsABasket(e.basket, o.side, positions, e);
      var k := AssetKey(e.basket[0].symbol, e.side);
      RateOfFirst(e, positions, k);
      AllocationIsCovered(engs, i, positions, slack, o, th, rate.r, k);
    } else {
      RateErrors(e.basket, o.side, positions, e);
    }
  }

  lemma RateOfFirst(e: Engagement, positions: Positions, k: AssetKey)
    requires e.basket != [] && k == AssetKey(e.basket[0].symbol, e.side)
    requires BasketRate(e.basket, e.side, positions, e).Rate?
    ensures k in positions
  {
  }

  lemma {:induction false} RateErrors(basket: seq<BasketAsset>, side: Side, positions: Positions, e: Engagement)
    ensures var r := BasketRate(basket, side, positions, e);
      r.NoRate? ==> !r.error.CouldntAllocate?
  {
    if |basket| > 1 {
      RateErrors(basket[1..], side, positions, e);
    }
  }

  /** Without a tolerance, and without a shortage to begin with, allocation never runs short. */
  lemma NeverShort(engs: seq<Engagement>, i: nat, positions: Positions, o: SolverOrder, now: int, th: Thresholds)
    requires i < |engs| && FairBatch(engs, positions, th.zero) && o.side == engs[i].side && th.zero == 0.0
    ensures var f := FillIndexOrder(positions, engs[i], o, now, th);
      !(f.error.Some? && f.error.value.CouldntAllocate?)
  {
    hide FillIndexOrder, FairBatch;
    AllocationShortage(engs, i, positions, th.zero, o, now, th);
  }

  // A fill keeps the batch fair

  lemma FairWithMoreSlack(engs: seq<Engagement>, p: Position, k: AssetKey, slack: real, slack': real)
    requires Fair(engs, p, k, slack) && slack <= slack'
    ensures Fair(engs, p, k, slack')
  {
  }

  lemma TakenAfter(e: Engagement, k: AssetKey, filled: real)
    ensures TakenAt(k)(e.(filled := filled)) == TakenAt(k)(e) + Needed(e.basket, e.side, k, filled - e.filled)
    ensures FractionAt(k)(e.(filled := filled)) == FractionAt(k)(e)
  {
    NeededAdds(e.basket, e.side, k, e.filled, filled - e.filled);
  }

  lemma NewTakeWithinFraction(e: Engagement, positions: Positions, k: AssetKey, rate: real)
    requires EngagementOk(e) && k in positions && WithinFraction(e, positions[k], k)
    requires BasketRate(e.basket, e.side, positions, e) == Rate(rate)
    ensures WithinFraction(e.(filled := FilledAt(e, rate)), positions[k], k)
  {
    hide FilledAt, BasketRate;
    var filled := FilledAt(e, rate);
    TakenAfter(e, k, filled);
    NeededMeaning(e.basket, e.side, k, filled);
    if a :| a in e.basket && AssetKey(a.symbol, e.side) == k {
      assert a.quantity >= 0.0;
      WithinShare(e, e.side, positions, a, rate);
      assert Lists(e.basket, k.symbol);
    } else {
      FractionOfUnlisted(e, positions[k], k);
    }
  }

  lemma FractionOfUnlisted(e: Engagement, p: Position, k: AssetKey)
    requires forall a :: a in e.basket ==> AssetKey(a.symbol, e.side) != k
    ensures FractionAt(k)(e) == 0.0 && p.quantity * FractionAt(k)(e) == 0.0
  {
    forall a | a in e.basket && a.symbol == k.symbol ensures k.side != e.side {
      assert AssetKey(a.symbol, e.side) != k;
    }
  }

  /** At one key, handing out what a fill needs keeps the shares fair, with the tolerance added to the slack. */
  lemma FillKeepsFairAt(
      engs: seq<Engagement>, i: nat, e': Engagement, p: Position, p': Position, k: AssetKey, slack: real, t: real)
    requires i < |engs| && Fair(engs, p, k, slack)
    requires e' == engs[i].(filled := e'.filled) && WithinFraction(e', p, k)
    requires p'.quantity == p.quantity && Usable(p'.openLots)
    requires Available(p'.openLots)
          >= Available(p.openLots) - Needed(e'.basket, e'.side, k, e'.filled - engs[i].filled) - t
    ensures Fair(engs[i := e'], p', k, slack + t)
  {
    hide Needed, Available;
    var engs' := engs[i := e'];
    TakenAfter(engs[i], k, e'.filled);
    SumByUpdate(engs, i, e', TakenAt(k));
    SumByUpdate(engs, i, e', FractionAt(k));
    forall e | e in engs' ensures WithinFraction(e, p', k) {
      if e != e' { assert e in engs && WithinFraction(e, p, k); }
    }
  }

  /** Filling an order keeps the batch fair, unless the fill fails for lack of lots. */
  lemma FillKeepsFair(
      engs: seq<Engagement>, i: nat, positions: Positions, slack: real, o: SolverOrder, now: int, th: Thresholds)
    requires i < |engs| && FairBatch(engs, positions, slack) && o.side == engs[i].side
    requires 0.0 <= th.zero && 0.0 <= slack
    requires var f := FillIndexOrder(positions, engs[i], o, now, th);
      !(f.error.Some? && f.error.value.CouldntAllocate?)
    ensures var f := FillIndexOrder(positions, engs[i], o, now, th);
      && f.positions.Keys == positions.Keys
      && FairBatch(engs[i := f.engagement], f.positions, slack + th.zero)
  {
    hide FilledAt, AllocateBasket, Fair, BasketRate;
    var e := engs[i];
    var f := FillIndexOrder(positions, e, o, now, th);
    var rate := BasketRate(e.basket, o.side, positions, e);
    assert EngagementOk(e);
    if rate.Rate? && Fills(positions, e, o, th, rate.r) {
      KeysAreKept(e.basket, o.side, positions, FilledAt(e, rate.r) - e.filled, th.zero);
      forall k | k in positions ensures Fair(engs[i := f.engagement], f.positions[k], k, slack + th.zero) {
        FillKeepsKey(engs, i, positions, slack, o, now, th, rate.r, k);
      }
      assert EngagementOk(f.engagement);
    } else {
      assert f.positions == positions && f.engagement == e && engs[i := e] == engs;
      forall k | k in positions ensures Fair(engs, positions[k], k, slack + th.zero) {
        FairWithMoreSlack(engs, positions[k], k, slack, slack + th.zero);
      }
    }
  }

  lemma FillKeepsKey(
      engs: seq<Engagement>, i: nat, positions: Positions, slack: real, o: SolverOrder, now: int, th: Thresholds,
      rate: real, k: AssetKey)
    requires i < |engs| && FairBatch(engs, positions, slack) && o.side == engs[i].side && k in positions
    requires 0.0 <= th.zero && 0.0 <= slack && Fills(positions, engs[i], o, th, rate)
    requires var f := FillIndexOrder(positions, engs[i], o, now, th);
      !(f.error.Some? && f.error.value.CouldntAllocate?)
    ensures var f := FillIndexOrder(positions, engs[i], o, now, th);
      k in f.positions && Fair(engs[i := f.engagement], f.positions[k], k, slack + th.zero)
  {
    hide FilledAt, BasketRate, AllocateBasket, Needed, Available, TakenAt, FractionAt;
    var e := engs[i];
    var f := FillIndexOrder(positions, e, o, now, th);
    assert EngagementOk(e);
    assert Fair(engs, positions[k], k, slack);
    assert WithinFraction(e, positions[k], k);
    AllocationIsCovered(engs, i, positions, slack, o, th, rate, k);
    NewTakeWithinFraction(e, positions, k, rate);
    FillKeepsFairAt(engs, i, f.engagement, positions[k], f.positions[k], k, slack, th.zero);
  }

  lemma {:induction false} KeysAreKept(basket: seq<BasketAsset>, side: Side, positions: Positions, delta: real, t: real)
    ensures AllocateBasket(basket, side, positions, delta, t).positions.Keys == positions.Keys
  {
    if basket != [] {
      var key := AssetKey(basket[0].symbol, side);
      if key in positions {
        var p := positions[key];
        var a := Allocate(p.openLots, p.closedLots, key.symbol, Asked(basket[0], delta), t);
        KeysAreKept(basket[1..], side, positions[key := p.(openLots := a.open, closedLots := a.closed)], delta, t);
      }
    }
  }

  // Exactly when a fill reports insufficient lots

  predicate RunsShort(f: Filled) {
    f.error.Some? && f.error.value.CouldntAllocate?
  }

  ghost predicate UsablePositions(positions: Positions) {
    forall k :: k in positions ==> Usable(positions[k].openLots)
  }

  /** The open lots of an asset fall short of what `units` of the index need by more than the tolerance. */
  ghost predicate Lacks(positions: Positions, side: Side, a: BasketAsset, units: real, t: real) {
    var k := AssetKey(a.symbol, side);
    k in positions && Available(positions[k].openLots) + t < Asked(a, units)
  }

  ghost predicate LacksSome(basket: seq<BasketAsset>, side: Side, positions: Positions, units: real, t: real) {
    exists a :: a in basket && Lacks(positions, side, a, units, t)
  }

  ghost predicate HasAll(basket: seq<BasketAsset>, side: Side, positions: Positions) {
    forall a :: a in basket ==> AssetKey(a.symbol, side) in positions
  }

  /** What allocating the first asset of a basket leaves of the positions. */
  function AfterFirst(a: BasketAsset, side: Side, positions: Positions, delta: real, t: real): Positions
    requires AssetKey(a.symbol, side) in positions
  {
    var k := AssetKey(a.symbol, side);
    var p := positions[k];
    var m := Allocate(p.openLots, p.closedLots, k.symbol, Asked(a, delta), t);
    positions[k := p.(openLots := m.open, closedLots := m.closed)]
  }

  lemma FirstAllocation(a: BasketAsset, side: Side, positions: Positions, delta: real, t: real)
    requires 0.0 <= t && 0.0 <= delta && 0.0 <= a.quantity
    requires AssetKey(a.symbol, side) in positions && UsablePositions(positions)
    ensures UsablePositions(AfterFirst(a, side, positions, delta, t))
    ensures var k := AssetKey(a.symbol, side);
      var m := Allocate(positions[k].openLots, positions[k].closedLots, k.symbol, Asked(a, delta), t);
      m.ok && (t < m.left <==> Lacks(positions, side, a, delta, t))
  {
    var k, need := AssetKey(a.symbol, side), Asked(a, delta);
    var p := positions[k];
    assert Usable(p.openLots);
    assert 0.0 <= need;
    hide Allocate, Available, Asked, Usable;
    AllocationConserves(p.openLots, p.closedLots, k.symbol, need, t);
    AllocationLeft(p.openLots, p.closedLots, k.symbol, need, t);
  }

  lemma LackingLater(basket: seq<BasketAsset>, side: Side, positions: Positions, p: Position, delta: real, t: real)
    requires BasketOk(basket) && basket != [] && HasAll(basket, side, positions)
    ensures var positions' := positions[AssetKey(basket[0].symbol, side) := p];
      && BasketOk(basket[1..])
      && HasAll(basket[1..], side, positions')
      && (LacksSome(basket[1..], side, positions', delta, t) <==>
            exists a :: a in basket[1..] && Lacks(positions, side, a, delta, t))
  {
    var positions' := positions[AssetKey(basket[0].symbol, side) := p];
    assert forall i :: 0 <= i < |basket[1..]| ==> basket[1..][i] == basket[i + 1];
    forall a | a in basket[1..]
      ensures AssetKey(a.symbol, side) in positions'
      ensures Lacks(positions', side, a, delta, t) <==> Lacks(positions, side, a, delta, t)
    {
      assert a in basket && a.symbol != basket[0].symbol;
    }
  }

  /** Handing out a basket fails exactly when the lots of some asset of it are too few. */
  lemma {:induction false} BasketFailsExactly(
      basket: seq<BasketAsset>, side: Side, positions: Positions, delta: real, t: real)
    requires BasketOk(basket) && 0.0 <= delta && 0.0 <= t
    requires HasAll(basket, side, positions) && UsablePositions(positions)
    ensures var b := AllocateBasket(basket, side, positions, delta, t);
      && (b.error.Some? <==> LacksSome(basket, side, positions, delta, t))
      && (b.error.Some? ==> b.error.value.CouldntAllocate?)
      && UsablePositions(b.positions)
  {
    if basket != [] {
      hide Lacks, UsablePositions, Allocate, Asked;
      var a := basket[0];
      assert a in basket;
      FirstAllocation(a, side, positions, delta, t);
      var positions' := AfterFirst(a, side, positions, delta, t);
      LackingLater(basket, side, positions, positions'[AssetKey(a.symbol, side)], delta, t);
      if !Lacks(positions, side, a, delta, t) {
        BasketFailsExactly(basket[1..], side, positions', delta, t);
        assert basket == [a] + basket[1..];
      }
    }
  }

  lemma RateNeedsPositions(e: Engagement, side: Side, positions: Positions)
    requires BasketRate(e.basket, side, positions, e).Rate?
    ensures HasAll(e.basket, side, positions)
  {
    forall a | a in e.basket ensures AssetKey(a.symbol, side) in positions {
      BasketRateIsLowest(e.basket, side, positions, e, BasketRate(e.basket, side, positions, e).r, a);
    }
  }

  /** The positions let the order ask for at least the tolerance more, and some asset has too few lots for that. */
  ghost predicate AsksTooMuch(positions: Positions, e: Engagement, o: SolverOrder, th: Thresholds) {
    var rate := BasketRate(e.basket, o.side, positions, e);
    && rate.Rate? && Fills(positions, e, o, th, rate.r)
    && LacksSome(e.basket, o.side, positions, FilledAt(e, rate.r) - e.filled, th.zero)
  }

  /** A fill reports insufficient lots if and only if some asset has too few, in fair batches and others; the lots stay
      usable either way. */
  lemma FillFailsExactly(positions: Positions, e: Engagement, o: SolverOrder, now: int, th: Thresholds)
    requires EngagementOk(e) && UsablePositions(positions) && 0.0 <= th.zero
    ensures var f := FillIndexOrder(positions, e, o, now, th);
      && (RunsShort(f) <==> AsksTooMuch(positions, e, o, th))
      && UsablePositions(f.positions)
  {
    hide UsablePositions, BasketRate, FilledAt, AllocateBasket, LacksSome, HasAll, BasketOk;
    var rate := BasketRate(e.basket, o.side, positions, e);
    if rate.NoRate? {
      RateErrors(e.basket, o.side, positions, e);
    } else if Fills(positions, e, o, th, rate.r) {
      RateNeedsPositions(e, o.side, positions);
      BasketFailsExactly(e.basket, o.side, positions, FilledAt(e, rate.r) - e.filled, th.zero);
    }
  }
}
