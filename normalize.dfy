/**
 * Normalisation of the entered rows (collectData): the row filter, the derived
 * totals, and the date order of both lists.
 */
module Normalize {
  import opened Records
  import opened StableSort

  /** parseFloat(field) || 0: a missing or unparseable number reads as 0. */
  function OrZero(v: Option<real>): real {
    match v
    case Some(x) => x
    case None => 0.0
  }

  /** A row is kept when it has a date, a positive quantity and a price that is not negative. */
  predicate Keeps(row: RawRow) {
    row.date.Some? && OrZero(row.quantity) > 0.0 && OrZero(row.price) >= 0.0
  }

  /** A purchase lot as collectData builds it: positive quantity, price not negative, total derived. */
  predicate ValidLot(v: LotValue) {
    v.quantity > 0.0 && v.unitCost >= 0.0 && v.totalCost == v.quantity * v.unitCost
  }

  /** A sale as collectData builds it. */
  predicate ValidSale(s: Sale) {
    s.quantity > 0.0 && s.unitPrice >= 0.0 && s.totalRevenue == s.quantity * s.unitPrice
  }

  /** The purchase lot a purchase row yields, if it is kept. */
  function PurchaseOf(row: RawRow): (r: Option<LotValue>)
    ensures r.Some? <==> Keeps(row)
    ensures r.Some? ==> ValidLot(r.value) && r.value.date == row.date.value
    ensures r.Some? ==> r.value.quantity == OrZero(row.quantity) && r.value.unitCost == OrZero(row.price)
  {
    var quantity, price := OrZero(row.quantity), OrZero(row.price);
    if row.date.Some? && quantity > 0.0 && price >= 0.0 then
      Some(LotValue(row.date.value, quantity, price, quantity * price))
    else None
  }

  /** The sale a sale row yields, if it is kept. */
  function SaleOf(row: RawRow): (r: Option<Sale>)
    ensures r.Some? <==> Keeps(row)
    ensures r.Some? ==> ValidSale(r.value) && r.value.date == row.date.value
    ensures r.Some? ==> r.value.quantity == OrZero(row.quantity) && r.value.unitPrice == OrZero(row.price)
  {
    var quantity, price := OrZero(row.quantity), OrZero(row.price);
    if row.date.Some? && quantity > 0.0 && price >= 0.0 then
      Some(Sale(row.date.value, quantity, price, quantity * price))
    else None
  }

  /** The records of the kept rows, in row order. */
  function Kept<T>(rows: seq<RawRow>, parse: RawRow -> Option<T>): (r: seq<T>)
    ensures |r| <= |rows|
  {
    if rows == [] then []
    else
      Kept(rows[..|rows| - 1], parse)
      + match parse(rows[|rows| - 1]) case Some(v) => [v] case None => []
  }

  function LotDate(v: LotValue): int { v.date }
  function SaleDate(s: Sale): int { s.date }

  /** The purchase list collectData leaves: kept rows, ordered by date, ties in row order. */
  function Purchases(rows: seq<RawRow>): (r: seq<LotValue>)
    ensures multiset(r) == multiset(Kept(rows, PurchaseOf)) && |r| <= |rows|
  {
    var kept := Kept(rows, PurchaseOf);
    SortByIsPermutation(kept, LotDate);
    assert |SortBy(kept, LotDate)| == |multiset(SortBy(kept, LotDate))| == |multiset(kept)| == |kept|;
    SortBy(kept, LotDate)
  }

  /** The sale list collectData leaves. */
  function Sales(rows: seq<RawRow>): (r: seq<Sale>)
    ensures multiset(r) == multiset(Kept(rows, SaleOf)) && |r| <= |rows|
  {
    var kept := Kept(rows, SaleOf);
    SortByIsPermutation(kept, SaleDate);
    assert |SortBy(kept, SaleDate)| == |multiset(SortBy(kept, SaleDate))| == |multiset(kept)| == |kept|;
    SortBy(kept, SaleDate)
  }

  /** Each row is judged on its own: keeping distributes over concatenation, so row order is kept. */
  lemma {:induction false} KeptAppend<T>(a: seq<RawRow>, b: seq<RawRow>, parse: RawRow -> Option<T>)
    ensures Kept(a + b, parse) == Kept(a, parse) + Kept(b, parse)
  {
    if b == [] {
      assert a + b == a;
    } else {
      KeptAppend(a, b[..|b| - 1], parse);
      assert (a + b)[..|a + b| - 1] == a + b[..|b| - 1];
    }
  }

  /** Judging one more row appends its record, if it is kept. */
  lemma KeptStep<T>(rows: seq<RawRow>, i: nat, parse: RawRow -> Option<T>)
    requires i < |rows|
    ensures Kept(rows[..i + 1], parse)
            == Kept(rows[..i], parse) + match parse(rows[i]) case Some(v) => [v] case None => []
  {
    assert rows[..i + 1][..i] == rows[..i];
  }

  /** A record is in the list exactly when some row parses to it. */
  lemma {:induction false} KeptMember<T>(rows: seq<RawRow>, parse: RawRow -> Option<T>, v: T)
    ensures v in Kept(rows, parse) <==> exists i :: 0 <= i < |rows| && parse(rows[i]) == Some(v)
  {
    if rows != [] {
      var init := rows[..|rows| - 1];
      KeptMember(init, parse, v);
      if exists i :: 0 <= i < |init| && parse(init[i]) == Some(v) {
        var i :| 0 <= i < |init| && parse(init[i]) == Some(v);
        assert parse(rows[i]) == Some(v);
      }
    }
  }

  lemma {:induction false} KeptLotsValid(rows: seq<RawRow>)
    ensures forall v :: v in Kept(rows, PurchaseOf) ==> ValidLot(v)
  {
    if rows != [] {
      KeptLotsValid(rows[..|rows| - 1]);
    }
  }

  lemma {:induction false} KeptSalesValid(rows: seq<RawRow>)
    ensures forall s :: s in Kept(rows, SaleOf) ==> ValidSale(s)
  {
    if rows != [] {
      KeptSalesValid(rows[..|rows| - 1]);
    }
  }

  /** Every purchase the list holds is valid, with its total cost derived from the row. */
  lemma PurchasesAreValid(rows: seq<RawRow>)
    ensures forall k :: 0 <= k < |Purchases(rows)| ==> ValidLot(Purchases(rows)[k])
  {
    var kept := Kept(rows, PurchaseOf);
    KeptLotsValid(rows);
    SortByIsPermutation(kept, LotDate);
    forall k | 0 <= k < |Purchases(rows)| ensures ValidLot(Purchases(rows)[k]) {
      assert Purchases(rows)[k] in multiset(kept);
    }
  }

  /** Every sale the list holds is valid, with its revenue derived from the row. */
  lemma SalesAreValid(rows: seq<RawRow>)
    ensures forall k :: 0 <= k < |Sales(rows)| ==> ValidSale(Sales(rows)[k])
  {
    var kept := Kept(rows, SaleOf);
    KeptSalesValid(rows);
    SortByIsPermutation(kept, SaleDate);
    forall k | 0 <= k < |Sales(rows)| ensures ValidSale(Sales(rows)[k]) {
      assert Sales(rows)[k] in multiset(kept);
    }
  }

  /**
   * The normalised purchase list is the kept rows reordered by date, with lots
   * of equal date in row order.
   */
  lemma PurchasesOrdered(rows: seq<RawRow>)
    ensures SortedBy(Purchases(rows), LotDate)
    ensures multiset(Purchases(rows)) == multiset(Kept(rows, PurchaseOf))
    ensures forall d :: WithKey(Purchases(rows), LotDate, d) == WithKey(Kept(rows, PurchaseOf), LotDate, d)
  {
    var kept := Kept(rows, PurchaseOf);
    SortByIsSorted(kept, LotDate);
    SortByIsPermutation(kept, LotDate);
    forall d ensures WithKey(Purchases(rows), LotDate, d) == WithKey(kept, LotDate, d) {
      SortByIsStable(kept, LotDate, d);
    }
  }

  /** The normalised sale list is the kept rows reordered by date, ties in row order. */
  lemma SalesOrdered(rows: seq<RawRow>)
    ensures SortedBy(Sales(rows), SaleDate)
    ensures multiset(Sales(rows)) == multiset(Kept(rows, SaleOf))
    ensures forall d :: WithKey(Sales(rows), SaleDate, d) == WithKey(Kept(rows, SaleOf), SaleDate, d)
  {
    var kept := Kept(rows, SaleOf);
    SortByIsSorted(kept, SaleDate);
    SortByIsPermutation(kept, SaleDate);
    forall d ensures WithKey(Sales(rows), SaleDate, d) == WithKey(kept, SaleDate, d) {
      SortByIsStable(kept, SaleDate, d);
    }
  }

  /** An empty price reads as 0, so such a row is kept at no cost; an empty quantity or date drops it. */
  lemma EmptyFields(date: int, amount: real)
    ensures amount > 0.0 ==>
      PurchaseOf(RawRow(Some(date), Some(amount), None)) == Some(LotValue(date, amount, 0.0, 0.0))
    ensures PurchaseOf(RawRow(Some(date), None, Some(amount))).None?
    ensures PurchaseOf(RawRow(None, Some(amount), Some(amount))).None?
  {
  }
}
