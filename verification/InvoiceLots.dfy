/** What an invoice says of each lot: one entry with all that the order was given of it. */
module InvoiceLots {
  import opened Common
  import opened BatchLots
  import opened MintInvoice

  /** The assignment was made from the entry's lot. */
  predicate From(x: AssetLot, entry: AssetLot, base: string -> string) {
    base(x.symbol) == entry.symbol && x.lotId == entry.lotId
  }

  function QuantityFor(entry: AssetLot, base: string -> string): AssetLot -> real {
    (x: AssetLot) => if From(x, entry, base) then x.quantity else 0.0
  }

  function FeeFor(entry: AssetLot, base: string -> string): AssetLot -> real {
    (x: AssetLot) => if From(x, entry, base) then x.feeShare else 0.0
  }

  function QuantityIn(entry: AssetLot): AssetLot -> real {
    (x: AssetLot) => if SameLot(x, entry) then x.quantity else 0.0
  }

  function FeeIn(entry: AssetLot): AssetLot -> real {
    (x: AssetLot) => if SameLot(x, entry) then x.feeShare else 0.0
  }

  lemma {:induction false} MergeAddsTo(acc: seq<AssetLot>, x: AssetLot, entry: AssetLot)
    ensures SumBy(Merge(acc, x), QuantityIn(entry)) == SumBy(acc, QuantityIn(entry)) + QuantityIn(entry)(x)
    ensures SumBy(Merge(acc, x), FeeIn(entry)) == SumBy(acc, FeeIn(entry)) + FeeIn(entry)(x)
  {
    if acc == [] {
      SumByOne(x, QuantityIn(entry));
      SumByOne(x, FeeIn(entry));
    } else if SameLot(acc[0], x) {
      assert Merge(acc, x)[1..] == acc[1..];
    } else {
      MergeAddsTo(acc[1..], x, entry);
      assert Merge(acc, x)[1..] == Merge(acc[1..], x);
    }
  }

  lemma {:induction false} CompressAddsTo(
      lots: seq<AssetLot>, acc: seq<AssetLot>, base: string -> string, entry: AssetLot)
    ensures var c := Compress(lots, acc, base);
      && SumBy(c, QuantityIn(entry)) == SumBy(acc, QuantityIn(entry)) + SumBy(lots, QuantityFor(entry, base))
      && SumBy(c, FeeIn(entry)) == SumBy(acc, FeeIn(entry)) + SumBy(lots, FeeFor(entry, base))
    decreases |lots|
  {
    if lots != [] {
      hide SumBy, Merge;
      var x := Assigned(lots[|lots| - 1], base);
      MergeAddsTo(acc, x, entry);
      CompressAddsTo(lots[..|lots| - 1], Merge(acc, x), base, entry);
      LastAdds(lots, QuantityFor(entry, base));
      LastAdds(lots, FeeFor(entry, base));
    } else {
      NothingFrom(entry, base);
    }
  }

  lemma NothingFrom(entry: AssetLot, base: string -> string)
    ensures SumBy([], QuantityFor(entry, base)) == 0.0 && SumBy([], FeeFor(entry, base)) == 0.0
  {
  }

  /** Among distinct entries only one counts for its lot. */
  lemma {:induction false} OnlyEntry(c: seq<AssetLot>, i: nat)
    requires Distinct(c) && i < |c|
    ensures SumBy(c, QuantityIn(c[i])) == c[i].quantity && SumBy(c, FeeIn(c[i])) == c[i].feeShare
  {
    if i == 0 {
      OthersCountNothing(c[1..], c[0]);
    } else {
      OnlyEntry(c[1..], i - 1);
      assert !SameLot(c[0], c[i]);
    }
  }

  lemma {:induction false} OthersCountNothing(c: seq<AssetLot>, entry: AssetLot)
    requires forall a :: a in c ==> !SameLot(a, entry)
    ensures SumBy(c, QuantityIn(entry)) == 0.0 && SumBy(c, FeeIn(entry)) == 0.0
  {
    if c != [] {
      OthersCountNothing(c[1..], entry);
    }
  }

  // What is left of the lot, and what it was

  lemma {:induction false} MergeEnters(acc: seq<AssetLot>, x: AssetLot, a: AssetLot) returns (m: AssetLot)
    requires a in acc + [x]
    ensures m in Merge(acc, x) && SameLot(a, m) && m.remaining <= a.remaining
  {
    if acc == [] {
      m := x;
    } else if SameLot(acc[0], x) {
      m := if a in acc[1..] then a else Combine(acc[0], x);
    } else if a in acc[1..] + [x] {
      m := MergeEnters(acc[1..], x, a);
    } else {
      m := acc[0];
    }
  }

  /** Price and original size are those of one assignment, what is left is what one of them left. */
  predicate TakenFrom(m: AssetLot, shape: AssetLot, least: AssetLot) {
    && SameLot(shape, m) && m.price == shape.price && m.original == shape.original && m.originalFee == shape.originalFee
    && SameLot(least, m) && m.remaining == least.remaining
  }

  lemma {:induction false} MergeTakes(acc: seq<AssetLot>, x: AssetLot, m: AssetLot)
    returns (shape: AssetLot, least: AssetLot)
    requires m in Merge(acc, x)
    ensures shape in acc + [x] && least in acc + [x] && TakenFrom(m, shape, least)
  {
    if acc == [] {
      shape, least := x, x;
    } else if SameLot(acc[0], x) {
      shape, least := m, m;
      if m !in acc[1..] {
        shape, least := acc[0], if acc[0].remaining <= x.remaining then acc[0] else x;
      }
    } else if m in Merge(acc[1..], x) {
      shape, least := MergeTakes(acc[1..], x, m);
    } else {
      shape, least := m, m;
    }
  }

  lemma {:induction false} CompressEnters(lots: seq<AssetLot>, acc: seq<AssetLot>, base: string -> string, a: AssetLot)
    returns (m: AssetLot)
    requires a in acc + AssignedAll(lots, base)
    ensures m in Compress(lots, acc, base) && SameLot(a, m) && m.remaining <= a.remaining
    decreases |lots|
  {
    if lots == [] {
      m := a;
    } else {
      hide Merge, Assigned, SameLot;
      var front, x := lots[..|lots| - 1], Assigned(lots[|lots| - 1], base);
      assert AssignedAll(lots, base) == AssignedAll(front, base) + [x];
      var b := a;
      if a !in AssignedAll(front, base) {
        b := MergeEnters(acc, x, a);
      }
      SameLotTwice();
      m := CompressEnters(front, Merge(acc, x), base, b);
    }
  }

  lemma SameLotTwice()
    ensures forall a, b, c :: SameLot(a, b) && SameLot(b, c) ==> SameLot(a, c)
    ensures forall a :: SameLot(a, a)
  {
  }

  lemma {:induction false} CompressTakes(lots: seq<AssetLot>, acc: seq<AssetLot>, base: string -> string, m: AssetLot)
    returns (shape: AssetLot, least: AssetLot)
    requires m in Compress(lots, acc, base)
    ensures shape in acc + AssignedAll(lots, base) && least in acc + AssignedAll(lots, base)
    ensures TakenFrom(m, shape, least)
    decreases |lots|
  {
    if lots == [] {
      shape, least := m, m;
    } else {
      hide Merge, Assigned;
      var front, x := lots[..|lots| - 1], Assigned(lots[|lots| - 1], base);
      assert AssignedAll(lots, base) == AssignedAll(front, base) + [x];
      shape, least := CompressTakes(front, Merge(acc, x), base, m);
      if shape in Merge(acc, x) {
        var shape', other := MergeTakes(acc, x, shape);
        shape := shape';
      }
      if least in Merge(acc, x) {
        var other, least' := MergeTakes(acc, x, least);
        least := least';
      }
    }
  }

  /** The whole of what an entry says of its lot. */
  ghost predicate SumsUp(entry: AssetLot, lots: seq<AssetLot>, base: string -> string) {
    && entry.quantity == SumBy(lots, QuantityFor(entry, base))
    && entry.feeShare == SumBy(lots, FeeFor(entry, base))
    && (forall x :: x in lots && From(x, entry, base) ==> entry.remaining <= x.remaining - x.quantity)
    && (exists x :: x in lots && From(x, entry, base) && entry.remaining == x.remaining - x.quantity)
    && exists x :: x in lots && From(x, entry, base)
         && x.price == entry.price && x.original == entry.original && x.originalFee == entry.originalFee
  }

  lemma AssignedOf(lots: seq<AssetLot>, base: string -> string, a: AssetLot) returns (x: AssetLot)
    requires a in AssignedAll(lots, base)
    ensures x in lots && a == x.(remaining := x.remaining - x.quantity, symbol := base(x.symbol))
  {
    var i :| 0 <= i < |lots| && a == Assigned(lots[i], base);
    x := lots[i];
  }

  lemma AssignedIn(lots: seq<AssetLot>, base: string -> string, x: AssetLot) returns (a: AssetLot)
    requires x in lots
    ensures a in AssignedAll(lots, base) && a == x.(remaining := x.remaining - x.quantity, symbol := base(x.symbol))
  {
    var i :| 0 <= i < |lots| && x == lots[i];
    a := AssignedAll(lots, base)[i];
  }

  /** The entry for an assignment is the only one for its lot. */
  lemma EntryOf(lots: seq<AssetLot>, base: string -> string, x: AssetLot) returns (i: nat)
    requires x in lots && Distinct(Compress(lots, [], base))
    ensures var c := Compress(lots, [], base);
      && i < |c| && From(x, c[i], base) && c[i].remaining <= x.remaining - x.quantity
      && forall j :: 0 <= j < |c| && From(x, c[j], base) ==> j == i
  {
    var a := AssignedIn(lots, base, x);
    assert [] + AssignedAll(lots, base) == AssignedAll(lots, base);
    var m := CompressEnters(lots, [], base, a);
    hide Compress;
    var c := Compress(lots, [], base);
    i :| 0 <= i < |c| && c[i] == m;
    forall j | 0 <= j < |c| && From(x, c[j], base) ensures j == i {
      assert SameLot(c[i], c[j]) && SameLot(c[j], c[i]);
    }
  }

  lemma EntrySumsUp(lots: seq<AssetLot>, base: string -> string, i: nat)
    requires Distinct(Compress(lots, [], base)) && i < |Compress(lots, [], base)|
    ensures SumsUp(Compress(lots, [], base)[i], lots, base)
  {
    var c := Compress(lots, [], base);
    CompressAddsTo(lots, [], base, c[i]);
    OnlyEntry(c, i);
    var shape, least := CompressTakes(lots, [], base, c[i]);
    assert [] + AssignedAll(lots, base) == AssignedAll(lots, base);
    hide Compress;
    var shapeOf := AssignedOf(lots, base, shape);
    var leastOf := AssignedOf(lots, base, least);
    assert From(shapeOf, c[i], base) && From(leastOf, c[i], base);
    forall x | x in lots && From(x, c[i], base) ensures c[i].remaining <= x.remaining - x.quantity {
      var j := EntryOf(lots, base, x);
    }
  }

  /** An invoice has one entry for each lot that the order was given something of. The entry adds up the quantities and
      fees of all assignments of the lot and says the least that any of them left of it. */
  lemma EntriesAreLots(lots: seq<AssetLot>, base: string -> string)
    ensures var c := Compress(lots, [], base);
      && Distinct(c)
      && (forall entry :: entry in c ==> SumsUp(entry, lots, base))
      && (forall x :: x in lots ==> exists entry :: entry in c && From(x, entry, base))
  {
    CompressTotals(lots, [], base);
    NothingIsDistinct();
    hide Distinct, SumsUp, Compress;
    var c := Compress(lots, [], base);
    forall entry | entry in c ensures SumsUp(entry, lots, base) {
      var i :| 0 <= i < |c| && c[i] == entry;
      EntrySumsUp(lots, base, i);
    }
    forall x | x in lots ensures exists entry :: entry in c && From(x, entry, base) {
      var i := EntryOf(lots, base, x);
      assert c[i] in c;
    }
  }
}
