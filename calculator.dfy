/**
 * The InventoryCalculator object: the normalised purchase and sale lists it
 * keeps, and the three engines run one after the other on the same purchase
 * lot objects (calculateAndDisplay).
 */
module Calculator {
  import opened Records
  import opened Sums
  import opened Metrics
  import opened StableSort
  import opened Normalize
  import opened LotQueue
  import opened Average

  /** What one calculation produces: the three results and the impact figures drawn from them. */
  datatype Report = Report(fifo: Costing, lifo: Costing, wa: AverageCosting, impact: Impact)

  /** displayImpactAnalysis: the pairwise differences of COGS and ending inventory, with their tax effect. */
  function ImpactOf(fifo: Costing, lifo: Costing, wa: AverageCosting): (i: Impact)
    ensures lifo.cogs + i.fifoLifo.cogs == fifo.cogs && lifo.endingInventory + i.fifoLifo.endingInventory == fifo.endingInventory
    ensures wa.cogs + i.fifoWa.cogs == fifo.cogs && wa.endingInventory + i.fifoWa.endingInventory == fifo.endingInventory
    ensures wa.cogs + i.lifoWa.cogs == lifo.cogs && wa.endingInventory + i.lifoWa.endingInventory == lifo.endingInventory
    ensures i.fifoLifo.tax == i.fifoLifo.cogs * TaxRate && i.fifoWa.tax == i.fifoWa.cogs * TaxRate
    ensures i.lifoWa.tax == i.lifoWa.cogs * TaxRate
  {
    Analyze(Totals(fifo.cogs, fifo.endingInventory), Totals(lifo.cogs, lifo.endingInventory),
            Totals(wa.cogs, wa.endingInventory))
  }

  /** A FIFO run over the whole purchase list. */
  function FifoRun(purchases: seq<LotValue>, sales: seq<Sale>): Run {
    RunSales(purchases, 0, |purchases|, Head, sales)
  }

  /** The LIFO run as calculateAndDisplay performs it: on the lots FIFO has just drained. */
  function LifoAfterFifo(purchases: seq<LotValue>, sales: seq<Sale>): Run {
    RunSales(FifoRun(purchases, sales).lots, 0, |purchases|, Tail, sales)
  }

  /**
   * The three engines as calculateAndDisplay runs them: FIFO, then LIFO on the
   * same lot objects, then the weighted average on what both left behind.
   */
  function ComposedReport(purchases: seq<LotValue>, sales: seq<Sale>): (rep: Report)
    ensures |rep.fifo.details| == |sales| && |rep.lifo.details| == |sales| && |rep.wa.details| == |sales|
  {
    var fifo := CostingOf(FifoRun(purchases, sales), sales);
    var lifo := CostingOf(LifoAfterFifo(purchases, sales), sales);
    var wa := AverageCostingOf(LifoAfterFifo(purchases, sales).lots, sales);
    Report(fifo, lifo, wa, ImpactOf(fifo, lifo, wa))
  }

  /** calculateAndDisplay on the entered rows: nothing unless both lists keep at least one row. */
  function Calculate(purchaseRows: seq<RawRow>, saleRows: seq<RawRow>): (r: Option<Report>)
    ensures r.Some? <==> Purchases(purchaseRows) != [] && Sales(saleRows) != []
    ensures r.Some? ==> r.value.fifo == QueueCosting(Purchases(purchaseRows), Head, Sales(saleRows))
  {
    var purchases, sales := Purchases(purchaseRows), Sales(saleRows);
    if |purchases| == 0 || |sales| == 0 then None else Some(ComposedReport(purchases, sales))
  }

  /** The three engines each run on the lots as they were entered. */
  function IndependentReport(purchases: seq<LotValue>, sales: seq<Sale>): Report {
    var fifo := QueueCosting(purchases, Head, sales);
    var lifo := QueueCosting(purchases, Tail, sales);
    var wa := AverageCostingOf(purchases, sales);
    Report(fifo, lifo, wa, ImpactOf(fifo, lifo, wa))
  }

  /** The calculation with every engine starting from the entered lots. */
  function CalculateIntended(purchaseRows: seq<RawRow>, saleRows: seq<RawRow>): Option<Report> {
    var purchases, sales := Purchases(purchaseRows), Sales(saleRows);
    if |purchases| == 0 || |sales| == 0 then None else Some(IndependentReport(purchases, sales))
  }

  /** Where one sale's inner loop has got to: what is still to come, after `done`, leads to `goal`. */
  ghost predicate Continues(now: Served, done: seq<Entry>, goal: Served) {
    done + now.entries == goal.entries && now.lots == goal.lots
    && now.lo == goal.lo && now.hi == goal.hi && now.unmet == goal.unmet
  }

  /** One pass of the inner loop keeps it on course for the same end state. */
  lemma ContinuesAfterPass(before: seq<LotValue>, lo: nat, hi: nat, end: End, toSell: real,
                           done: seq<Entry>, goal: Served, t: Step)
    requires lo < hi <= |before| && toSell > 0.0
    requires t == TakeOne(before, lo, hi, end, toSell)
    requires Continues(Serve(before, lo, hi, end, toSell), done, goal)
    ensures t.toSell == toSell - t.entry.quantity
    ensures |t.lots| == |before| && t.lo <= t.hi <= hi && (t.hi - t.lo < hi - lo || t.toSell <= 0.0)
    ensures Continues(Serve(t.lots, t.lo, t.hi, end, t.toSell), done + [t.entry], goal)
  {
    TakeOneFacts(before, lo, hi, end, toSell);
    var rest := Serve(t.lots, t.lo, t.hi, end, t.toSell);
    assert Serve(before, lo, hi, end, toSell) == rest.(entries := [t.entry] + rest.entries);
    assert done + [t.entry] + rest.entries == done + ([t.entry] + rest.entries);
  }

  /** When nothing is left to sell or the deque is empty, the loop has reached its end state. */
  lemma ContinuesToEnd(lots: seq<LotValue>, lo: nat, hi: nat, end: End, toSell: real,
                       done: seq<Entry>, goal: Served)
    requires lo <= hi <= |lots| && !(toSell > 0.0 && lo < hi)
    requires Continues(Serve(lots, lo, hi, end, toSell), done, goal)
    ensures done == goal.entries && lots == goal.lots && lo == goal.lo && hi == goal.hi
  {
  }

  /** The outer loop's function, extended by one more sale whose breakdown and COGS are those of its Serve. */
  lemma RunSalesSnoc(lots: seq<LotValue>, end: End, sales: seq<Sale>, k: nat, prev: Run, s: Served,
                     breakdown: seq<Entry>, saleCOGS: real)
    requires k < |sales|
    requires prev == RunSales(lots, 0, |lots|, end, sales[..k])
    requires s == Serve(prev.lots, prev.lo, prev.hi, end, sales[k].quantity)
    requires breakdown == s.entries && saleCOGS == Sum(breakdown, EntryCost)
    ensures RunSales(lots, 0, |lots|, end, sales[..k + 1])
            == Run(prev.details + [SaleDetail(sales[k].date, sales[k].quantity, sales[k].unitPrice, breakdown, saleCOGS)],
                   s.lots, s.lo, s.hi)
  {
    PrefixStep(sales, k);
  }

  /** FIFO runs first, so calculateAndDisplay reports it as if it had run alone on the entered lots. */
  lemma ComposedFifoUnaffected(purchases: seq<LotValue>, sales: seq<Sale>)
    ensures ComposedReport(purchases, sales).fifo == IndependentReport(purchases, sales).fifo
  {
  }

  /**
   * Under calculateAndDisplay, LIFO starts from what FIFO left: the LIFO COGS and
   * ending inventory together make up the FIFO ending inventory, not the cost of
   * the purchases.
   */
  lemma ComposedLifoSeesFifoLeftovers(purchases: seq<LotValue>, sales: seq<Sale>)
    requires Nonnegative(purchases)
    ensures ComposedReport(purchases, sales).lifo.cogs + ComposedReport(purchases, sales).lifo.endingInventory
            == ComposedReport(purchases, sales).fifo.endingInventory
  {
    var f := FifoRun(purchases, sales);
    EndingIsAllOnHand(purchases, Head, sales);
    RunNonnegative(purchases, 0, |purchases|, Head, sales, f);
    QueueCostingBalances(f.lots, Tail, sales);
  }

  /**
   * Under calculateAndDisplay, every sale is served twice from the same stock:
   * what is left for the weighted average is the stock less twice the units sold,
   * or nothing.
   */
  lemma ComposedStock(purchases: seq<LotValue>, sales: seq<Sale>)
    requires Nonnegative(purchases) && SalesNonnegative(sales)
    ensures Sum(LifoAfterFifo(purchases, sales).lots, LotQuantity)
            == Max(0.0, Sum(purchases, LotQuantity) - 2.0 * Sum(sales, SaleQuantity))
  {
    var f := FifoRun(purchases, sales);
    var q, sold := Sum(purchases, LotQuantity), Sum(sales, SaleQuantity);
    var q1, q2 := Sum(f.lots, LotQuantity), Sum(LifoAfterFifo(purchases, sales).lots, LotQuantity);
    assert q1 == q - Min(sold, q) by {
      RunLeavesQuantity(purchases, Head, sales);
    }
    assert q2 == q1 - Min(sold, q1) by {
      RunNonnegative(purchases, 0, |purchases|, Head, sales, f);
      RunLeavesQuantity(f.lots, Tail, sales);
    }
    SumNonnegative(purchases, LotQuantity);
    SumNonnegative(sales, SaleQuantity);
    TwiceServed(q, sold, q1, q2);
  }

  lemma TwiceServed(q: real, sold: real, q1: real, q2: real)
    requires q >= 0.0 && sold >= 0.0
    requires q1 == q - Min(sold, q) && q2 == q1 - Min(sold, q1)
    ensures q2 == Max(0.0, q - 2.0 * sold)
  {
  }

  /**
   * A weighted-average result over what is left of q units after `sold` units
   * were served twice, the lots still carrying their total cost `cost`.
   */
  predicate AveragesLeftovers(wa: AverageCosting, q: real, sold: real, cost: real) {
    (q <= 2.0 * sold ==> wa.weightedAverageUnitCost == 0.0 && wa.cogs == 0.0 && wa.endingInventory == 0.0)
    && (q > 2.0 * sold ==> wa.weightedAverageUnitCost * (q - 2.0 * sold) == cost)
  }

  /**
   * The weighted average calculateAndDisplay reports: when twice the units sold
   * reach the stock it charges nothing; otherwise it spreads the whole purchase
   * cost over the stock the two queue methods left, which overstates the unit cost.
   */
  lemma ComposedAverage(purchases: seq<LotValue>, sales: seq<Sale>)
    requires Nonnegative(purchases) && SalesNonnegative(sales)
    ensures AveragesLeftovers(ComposedReport(purchases, sales).wa, Sum(purchases, LotQuantity),
                              Sum(sales, SaleQuantity), Sum(purchases, LotTotalCost))
  {
    var f := FifoRun(purchases, sales);
    var left := LifoAfterFifo(purchases, sales).lots;
    assert |f.lots| == |purchases|;
    assert left == RunSales(f.lots, 0, |f.lots|, Tail, sales).lots;
    assert ComposedReport(purchases, sales).wa == AverageCostingOf(left, sales);
    ComposedStock(purchases, sales);
    RunKeepsTotalCost(purchases, Head, sales);
    RunKeepsTotalCost(f.lots, Tail, sales);
    AverageOnLeftovers(left, sales, ComposedReport(purchases, sales).wa, Sum(purchases, LotQuantity),
                       Sum(sales, SaleQuantity), Sum(purchases, LotTotalCost));
  }

  /** The weighted average over lots holding max(0, q - 2 sold) units at their original total cost. */
  lemma AverageOnLeftovers(left: seq<LotValue>, sales: seq<Sale>, wa: AverageCosting, q: real, sold: real, cost: real)
    requires wa == AverageCostingOf(left, sales)
    requires Sum(left, LotQuantity) == Max(0.0, q - 2.0 * sold) && Sum(left, LotTotalCost) == cost
    ensures AveragesLeftovers(wa, q, sold, cost)
  {
    if q <= 2.0 * sold {
      AverageWithoutStock(left, sales);
    }
  }

  /**
   * When twice the units sold reach the stock, calculateAndDisplay's LIFO run
   * empties what FIFO left: it charges exactly FIFO's ending inventory and
   * reports nothing on hand. The weighted average then finds no stock: it
   * charges nothing, values nothing and reports minus the units sold as remaining.
   */
  lemma ComposedOversold(purchases: seq<LotValue>, sales: seq<Sale>, rep: Report)
    requires Nonnegative(purchases) && SalesNonnegative(sales)
    requires Sum(purchases, LotQuantity) <= 2.0 * Sum(sales, SaleQuantity)
    requires rep == ComposedReport(purchases, sales)
    ensures rep.lifo.endingInventory == 0.0 && rep.lifo.cogs == rep.fifo.endingInventory
    ensures rep.wa.weightedAverageUnitCost == 0.0 && rep.wa.cogs == 0.0 && rep.wa.endingInventory == 0.0
    ensures rep.wa.remainingQuantity == -Sum(sales, SaleQuantity)
  {
    var f := FifoRun(purchases, sales);
    var left := LifoAfterFifo(purchases, sales).lots;
    assert |f.lots| == |purchases|;
    ComposedStock(purchases, sales);
    RunNonnegative(purchases, 0, |purchases|, Head, sales, f);
    RunNonnegative(f.lots, 0, |f.lots|, Tail, sales, LifoAfterFifo(purchases, sales));
    NoStockMeansEmpty(left);
    EmptyLotsHoldNothing(left);
    EndingIsAllOnHand(f.lots, Tail, sales);
    ComposedLifoSeesFifoLeftovers(purchases, sales);
    AverageWithoutStock(left, sales);
  }

  /**
   * FIFO's remaining inventory as displayResults lists it: the lot objects left
   * in FIFO's deque, which are only read after LIFO has drained them as well.
   */
  function ShownFifoRemaining(purchases: seq<LotValue>, sales: seq<Sale>): seq<LotValue> {
    var f := FifoRun(purchases, sales);
    LifoAfterFifo(purchases, sales).lots[f.lo..f.hi]
  }

  /**
   * When twice the units sold reach the stock, the FIFO remaining-inventory
   * table lists the lots FIFO kept, each at 0 units, although FIFO's ending
   * inventory counts their stock.
   */
  lemma ComposedFifoTableDrained(purchases: seq<LotValue>, sales: seq<Sale>, shown: seq<LotValue>)
    requires Nonnegative(purchases) && SalesNonnegative(sales)
    requires Sum(purchases, LotQuantity) <= 2.0 * Sum(sales, SaleQuantity)
    requires shown == ShownFifoRemaining(purchases, sales)
    ensures |shown| == |ComposedReport(purchases, sales).fifo.remainingInventory|
    ensures forall k :: 0 <= k < |shown| ==>
      shown[k] == ComposedReport(purchases, sales).fifo.remainingInventory[k].(quantity := 0.0)
  {
    var f := FifoRun(purchases, sales);
    var l := LifoAfterFifo(purchases, sales);
    assert |f.lots| == |purchases|;
    ComposedStock(purchases, sales);
    RunNonnegative(purchases, 0, |purchases|, Head, sales, f);
    RunNonnegative(f.lots, 0, |f.lots|, Tail, sales, l);
    NoStockMeansEmpty(l.lots);
    RunLeavesUnreached(f.lots, 0, |f.lots|, Tail, sales, l);
    assert ComposedReport(purchases, sales).fifo.remainingInventory == f.lots[f.lo..f.hi];
  }

  /** Lots as collectData builds them hold stock and are on hand at their total cost. */
  lemma ValidLotsFacts(lots: seq<LotValue>)
    requires forall k :: 0 <= k < |lots| ==> ValidLot(lots[k])
    ensures Nonnegative(lots)
    ensures Sum(lots, OnHandValue) == Sum(lots, LotTotalCost)
    ensures lots != [] ==> Sum(lots, LotQuantity) > 0.0
  {
    forall k | 0 <= k < |lots| ensures OnHandValue(lots[k]) == LotTotalCost(lots[k]) {
      assert ValidLot(lots[k]);
    }
    SumMonotone(lots, OnHandValue, LotTotalCost);
    SumMonotone(lots, LotTotalCost, OnHandValue);
    if lots != [] {
      SumNonnegative(lots[..|lots| - 1], LotQuantity);
      assert ValidLot(lots[|lots| - 1]);
    }
  }

  /** Per engine, COGS and ending inventory add up to the cost of the purchases. */
  predicate Balanced(rep: Report, cost: real) {
    rep.fifo.cogs + rep.fifo.endingInventory == cost
    && rep.lifo.cogs + rep.lifo.endingInventory == cost
    && rep.wa.cogs + rep.wa.endingInventory == cost
  }

  /**
   * With every engine starting from the entered lots, each engine splits the
   * total purchase cost between COGS and ending inventory.
   */
  lemma IntendedBalances(purchaseRows: seq<RawRow>, saleRows: seq<RawRow>)
    ensures CalculateIntended(purchaseRows, saleRows).Some? ==>
      Balanced(CalculateIntended(purchaseRows, saleRows).value, Sum(Purchases(purchaseRows), LotTotalCost))
  {
    var purchases, sales := Purchases(purchaseRows), Sales(saleRows);
    if |purchases| > 0 && |sales| > 0 {
      PurchasesAreValid(purchaseRows);
      ValidLotsFacts(purchases);
      QueueCostingBalances(purchases, Head, sales);
      QueueCostingBalances(purchases, Tail, sales);
      AverageSplitsCost(purchases, sales);
    }
  }

  /** A sale the one lot covers is served from that lot alone, whichever end the engine takes from. */
  lemma OneLotServe(lot: LotValue, end: End, q: real)
    requires 0.0 < q <= lot.quantity
    ensures Serve([lot], 0, 1, end, q).entries == [Take(lot, q)]
  {
    var t := TakeOne([lot], 0, 1, end, q);
    assert t.entry == Take(lot, q) && t.toSell == 0.0;
    assert Serve(t.lots, t.lo, t.hi, end, t.toSell).entries == [];
  }

  /** FIFO and LIFO both charge a covered sale its units at the one lot's unit cost. */
  lemma OneLotQueueCogs(lot: LotValue, end: End, sale: Sale)
    requires 0.0 < sale.quantity <= lot.quantity
    ensures QueueCosting([lot], end, [sale]).cogs == sale.quantity * lot.unitCost
  {
    var e := Take(lot, sale.quantity);
    var d := Detail(sale, [e]);
    OneSaleRun([lot], 0, 1, end, sale);
    OneLotServe(lot, end, sale.quantity);
    SumSingle(e, EntryCost);
    SumSingle(d, DetailCOGS);
  }

  /** A run over one sale records that sale with the breakdown one Serve gives. */
  lemma OneSaleRun(lots: seq<LotValue>, lo: nat, hi: nat, end: End, sale: Sale)
    requires lo <= hi <= |lots|
    ensures RunSales(lots, lo, hi, end, [sale]).details == [Detail(sale, Serve(lots, lo, hi, end, sale.quantity).entries)]
  {
    assert [sale][..0] == [];
  }

  /**
   * One lot and one sale it covers: all three engines charge the sale's units at
   * the lot's unit cost, so FIFO, LIFO and the weighted average agree.
   */
  lemma OneLotAgrees(lot: LotValue, sale: Sale)
    requires 0.0 < sale.quantity <= lot.quantity && lot.totalCost == lot.quantity * lot.unitCost
    ensures IndependentReport([lot], [sale]).fifo.cogs == sale.quantity * lot.unitCost
    ensures IndependentReport([lot], [sale]).lifo.cogs == sale.quantity * lot.unitCost
    ensures IndependentReport([lot], [sale]).wa.cogs == sale.quantity * lot.unitCost
  {
    OneLotQueueCogs(lot, Head, sale);
    OneLotQueueCogs(lot, Tail, sale);
    OneLotAverageCogs(lot, sale);
  }

  /** The weighted average of one lot is its unit cost, so a covered sale is charged its units at that cost. */
  lemma OneLotAverageCogs(lot: LotValue, sale: Sale)
    requires 0.0 < lot.quantity && lot.totalCost == lot.quantity * lot.unitCost
    ensures AverageCostingOf([lot], [sale]).cogs == sale.quantity * lot.unitCost
  {
    var lots, sales := [lot], [sale];
    var r := AverageCostingOf(lots, sales);
    assert r.weightedAverageUnitCost == lot.unitCost by {
      SumSnoc([], lot, LotQuantity);
      assert [] + [lot] == lots;
      AverageOfUniformLots(lots, lot.unitCost);
    }
    assert Sum(sales, SaleQuantity) == sale.quantity by {
      SumSnoc([], sale, SaleQuantity);
      assert [] + [sale] == sales;
    }
    assert r.cogs == StockValue(Sum(sales, SaleQuantity), r.weightedAverageUnitCost) by {
      AverageCogsIsSoldTimesCost(lots, sales);
    }
  }

  /** One lot of 100 units at 10. */
  const AliasLots := [LotValue(20240101, 100.0, 10.0, 1000.0)]
  /** One sale of 80 units at 15. */
  const AliasSales := [Sale(20240201, 80.0, 15.0, 1200.0)]

  /**
   * calculateAndDisplay on one lot of 100 units and one sale of 80: FIFO charges
   * 800, LIFO finds only the 20 units FIFO left and charges 200, and the weighted
   * average finds no stock and charges nothing. Run on the entered lots, all
   * three charge 800.
   */
  lemma AliasingCounterexample()
    ensures ComposedReport(AliasLots, AliasSales).fifo.cogs == 800.0
    ensures ComposedReport(AliasLots, AliasSales).lifo.cogs == 200.0
    ensures ComposedReport(AliasLots, AliasSales).wa.cogs == 0.0
    ensures IndependentReport(AliasLots, AliasSales).lifo.cogs == 800.0
    ensures IndependentReport(AliasLots, AliasSales).wa.cogs == 800.0
  {
    var lot, sale := AliasLots[0], AliasSales[0];
    OneLotAgrees(lot, sale);
    ComposedFifoUnaffected(AliasLots, AliasSales);
    var rest := Take(lot.(quantity := 20.0), 20.0);
    var empty := [lot.(quantity := 0.0)];
    assert ComposedReport(AliasLots, AliasSales).lifo.cogs == 200.0 by {
      AliasLifoEmpties();
      SumSnoc([], rest, EntryCost);
      SumSnoc([], Detail(sale, [rest]), DetailCOGS);
      assert [] + [rest] == [rest] && [] + [Detail(sale, [rest])] == [Detail(sale, [rest])];
    }
    assert ComposedReport(AliasLots, AliasSales).wa.cogs == 0.0 by {
      AliasLifoEmpties();
      SumSnoc([], empty[0], LotQuantity);
      assert [] + [empty[0]] == empty;
      AverageWithoutStock(empty, AliasSales);
    }
  }

  /** FIFO charges the sale 80 of the lot's 100 units and leaves 20 in it. */
  lemma AliasFifoLeaves()
    ensures FifoRun(AliasLots, AliasSales).lots == [AliasLots[0].(quantity := 20.0)]
  {
    assert AliasSales[..0] == [];
    assert Serve(AliasLots, 0, 1, Head, 80.0).lots == [AliasLots[0].(quantity := 20.0)];
  }

  /** LIFO then finds 20 units in the lot, takes them and empties the deque. */
  lemma AliasLifoEmpties()
    ensures LifoAfterFifo(AliasLots, AliasSales)
      == Run([Detail(AliasSales[0], [Take(AliasLots[0].(quantity := 20.0), 20.0)])],
             [AliasLots[0].(quantity := 0.0)], 0, 0)
  {
    var drained := [AliasLots[0].(quantity := 20.0)];
    AliasFifoLeaves();
    assert AliasSales[..0] == [];
    assert Serve(drained, 0, 1, Tail, 80.0)
      == Served([Take(drained[0], 20.0)], [AliasLots[0].(quantity := 0.0)], 0, 0, 60.0);
  }

  class InventoryCalculator {
    /** The normalised purchase lots; the engines decrement their quantities in place. */
    var purchases: seq<Lot>
    /** The normalised sales. */
    var sales: seq<Sale>

    constructor ()
      ensures purchases == [] && sales == []
    {
      purchases := [];
      sales := [];
    }

    /** Replaces the purchase list by new lot objects holding the given values, in order. */
    method Stock(values: seq<LotValue>)
      modifies this
      ensures Snapshot(purchases) == values && Distinct(purchases)
      ensures forall l :: l in purchases ==> fresh(l)
      ensures sales == old(sales)
    {
      var lots: seq<Lot> := [];
      for j := 0 to |values|
        invariant Snapshot(lots) == values[..j] && Distinct(lots)
        invariant forall l :: l in lots ==> fresh(l)
        invariant sales == old(sales)
      {
        var lot := new Lot(values[j]);
        lots := lots + [lot];
        assert values[..j + 1] == values[..j] + [values[j]];
      }
      purchases := lots;
    }

    /**
     * collectData: keep the rows with a date, a positive quantity and a price
     * that is not negative, derive the totals, and order both lists by date.
     */
    method CollectData(purchaseRows: seq<RawRow>, saleRows: seq<RawRow>)
      modifies this
      ensures Snapshot(purchases) == Purchases(purchaseRows) && sales == Sales(saleRows)
      ensures Distinct(purchases) && forall l :: l in purchases ==> fresh(l)
    {
      var kept: seq<LotValue> := [];
      for i := 0 to |purchaseRows|
        invariant kept == Kept(purchaseRows[..i], PurchaseOf)
      {
        KeptStep(purchaseRows, i, PurchaseOf);
        var lot := PurchaseOf(purchaseRows[i]);
        if lot.Some? {
          kept := kept + [lot.value];
        }
      }
      assert purchaseRows[..|purchaseRows|] == purchaseRows;
      var keptSales: seq<Sale> := [];
      for i := 0 to |saleRows|
        invariant keptSales == Kept(saleRows[..i], SaleOf)
      {
        KeptStep(saleRows, i, SaleOf);
        var sale := SaleOf(saleRows[i]);
        if sale.Some? {
          keptSales := keptSales + [sale.value];
        }
      }
      assert saleRows[..|saleRows|] == saleRows;
      Stock(SortBy(kept, LotDate));
      sales := SortBy(keptSales, SaleDate);
    }

    /**
     * The inner while loop of calculateFIFO / calculateLIFO for one sale: take
     * from the chosen end of the deque purchases[lo..hi] until the sale is
     * covered or the deque is empty.
     */
    method SellFromDeque(lo: nat, hi: nat, end: End, quantity: real, ghost goal: Served)
      returns (breakdown: seq<Entry>, saleCOGS: real, lo': nat, hi': nat)
      requires Distinct(purchases) && lo <= hi <= |purchases|
      requires goal == Serve(Snapshot(purchases), lo, hi, end, quantity)
      modifies set l | l in purchases
      ensures breakdown == goal.entries && Snapshot(purchases) == goal.lots && lo' == goal.lo && hi' == goal.hi
      ensures saleCOGS == Sum(breakdown, EntryCost)
    {
      var remainingToSell := quantity;
      saleCOGS := 0.0;
      breakdown := [];
      lo', hi' := lo, hi;
      while remainingToSell > 0.0 && lo' < hi'
        invariant lo' <= hi' <= |purchases|
        invariant Continues(Serve(Snapshot(purchases), lo', hi', end, remainingToSell), breakdown, goal)
        invariant saleCOGS == Sum(breakdown, EntryCost)
        decreases hi' - lo', if remainingToSell > 0.0 then 1 else 0
      {
        var entry, toSell;
        entry, toSell, lo', hi' := TakeFromDeque(lo', hi', end, remainingToSell, breakdown, goal);
        assert saleCOGS + entry.totalCost == Sum(breakdown + [entry], EntryCost) by {
          SumSnoc(breakdown, entry, EntryCost);
        }
        saleCOGS := saleCOGS + entry.totalCost;
        remainingToSell := toSell;
        breakdown := breakdown + [entry];
      }
      ContinuesToEnd(Snapshot(purchases), lo', hi', end, remainingToSell, breakdown, goal);
    }

    /**
     * The body of that loop: take min(still to sell, lot quantity) from the
     * chosen end of the deque, decrement that lot object, and drop it from the
     * deque (shift or pop) once its quantity is at most 0. The pass is the one
     * TakeOne describes, so the loop stays on course for the sale's end state.
     */
    method TakeFromDeque(lo: nat, hi: nat, end: End, remainingToSell: real,
                         ghost done: seq<Entry>, ghost goal: Served)
      returns (entry: Entry, toSell: real, lo': nat, hi': nat)
      requires Distinct(purchases) && lo < hi <= |purchases| && remainingToSell > 0.0
      requires Continues(Serve(Snapshot(purchases), lo, hi, end, remainingToSell), done, goal)
      modifies set l | l in purchases
      ensures var t := TakeOne(old(Snapshot(purchases)), lo, hi, end, remainingToSell);
        entry == t.entry && toSell == t.toSell && Snapshot(purchases) == t.lots && lo' == t.lo && hi' == t.hi
      ensures lo <= lo' <= hi' <= hi && (hi' - lo' < hi - lo || toSell <= 0.0)
      ensures Continues(Serve(Snapshot(purchases), lo', hi', end, toSell), done + [entry], goal)
    {
      ghost var before := Snapshot(purchases);
      ghost var t := TakeOne(before, lo, hi, end, remainingToSell);
      ContinuesAfterPass(before, lo, hi, end, remainingToSell, done, goal, t);
      TakeOneFacts(before, lo, hi, end, remainingToSell);
      var i := Pick(end, lo, hi);
      var lot := purchases[i];
      var quantityToUse := Min(remainingToSell, lot.quantity);
      entry := Take(lot.Value(), quantityToUse);
      toSell := remainingToSell - quantityToUse;
      lot.quantity := lot.quantity - quantityToUse;
      lo', hi' := lo, hi;
      if lot.quantity <= 0.0 {
        if end == Head {
          lo' := lo + 1;
        } else {
          hi' := hi - 1;
        }
      }
    }

    /**
     * The outer for loop of calculateFIFO (end == Head) and calculateLIFO
     * (end == Tail): every sale in date order against one deque over the
     * purchase lot objects, which are left drained.
     */
    method SellAll(end: End)
      returns (details: seq<SaleDetail>, totalCOGS: real, totalSalesRevenue: real, lo: nat, hi: nat)
      requires Distinct(purchases)
      modifies set l | l in purchases
      ensures Run(details, Snapshot(purchases), lo, hi)
              == RunSales(old(Snapshot(purchases)), 0, |purchases|, end, sales)
      ensures totalCOGS == Sum(details, DetailCOGS)
      ensures totalSalesRevenue == Sum(sales, SaleRevenue)
    {
      ghost var lots0 := Snapshot(purchases);
      var sold := sales;
      lo, hi := 0, |purchases|;
      totalCOGS, totalSalesRevenue := 0.0, 0.0;
      details := [];
      ghost var run := Run([], lots0, 0, |lots0|);
      for k := 0 to |sold|
        invariant run == RunSales(lots0, 0, |lots0|, end, sold[..k])
        invariant run == Run(details, Snapshot(purchases), lo, hi)
        invariant totalCOGS == Sum(details, DetailCOGS)
        invariant totalSalesRevenue == Sum(sold[..k], SaleRevenue)
      {
        var sale := sold[k];
        assert totalSalesRevenue + sale.totalRevenue == Sum(sold[..k + 1], SaleRevenue) by {
          SumPrefixStep(sold, k, SaleRevenue);
        }
        ghost var s := Serve(run.lots, run.lo, run.hi, end, sale.quantity);
        totalSalesRevenue := totalSalesRevenue + sale.totalRevenue;
        var breakdown, saleCOGS;
        breakdown, saleCOGS, lo, hi := SellFromDeque(lo, hi, end, sale.quantity, s);
        var detail := SaleDetail(sale.date, sale.quantity, sale.unitPrice, breakdown, saleCOGS);
        assert RunSales(lots0, 0, |lots0|, end, sold[..k + 1]) == Run(details + [detail], s.lots, s.lo, s.hi) by {
          RunSalesSnoc(lots0, end, sold, k, run, s, breakdown, saleCOGS);
        }
        assert totalCOGS + saleCOGS == Sum(details + [detail], DetailCOGS) by {
          SumSnoc(details, detail, DetailCOGS);
        }
        details := details + [detail];
        totalCOGS := totalCOGS + saleCOGS;
        run := Run(details, s.lots, lo, hi);
      }
      assert sold[..|sold|] == sold;
    }

    /**
     * calculateFIFO (end == Head) and calculateLIFO (end == Tail): sell
     * everything, then value what is left in the deque.
     */
    method Drain(end: End) returns (c: Costing)
      requires Distinct(purchases)
      modifies set l | l in purchases
      ensures c == CostingOf(RunSales(old(Snapshot(purchases)), 0, |purchases|, end, sales), sales)
      ensures Snapshot(purchases) == RunSales(old(Snapshot(purchases)), 0, |purchases|, end, sales).lots
      ensures purchases == old(purchases) && sales == old(sales)
    {
      var details, totalCOGS, totalSalesRevenue, lo, hi := SellAll(end);
      var remaining := Snapshot(purchases)[lo..hi];
      var endingInventoryValue := Sum(remaining, OnHandValue);
      var grossProfit := totalSalesRevenue - totalCOGS;
      c := Costing(totalCOGS, endingInventoryValue, grossProfit, Margin(grossProfit, totalSalesRevenue),
                   details, remaining);
      CostingFrom(Run(details, Snapshot(purchases), lo, hi), sales, c);
    }

    method CalculateFIFO() returns (c: Costing)
      requires Distinct(purchases)
      modifies set l | l in purchases
      ensures c == CostingOf(RunSales(old(Snapshot(purchases)), 0, |purchases|, Head, sales), sales)
      ensures Snapshot(purchases) == RunSales(old(Snapshot(purchases)), 0, |purchases|, Head, sales).lots
      ensures purchases == old(purchases) && sales == old(sales)
    {
      c := Drain(Head);
    }

    method CalculateLIFO() returns (c: Costing)
      requires Distinct(purchases)
      modifies set l | l in purchases
      ensures c == CostingOf(RunSales(old(Snapshot(purchases)), 0, |purchases|, Tail, sales), sales)
      ensures Snapshot(purchases) == RunSales(old(Snapshot(purchases)), 0, |purchases|, Tail, sales).lots
      ensures purchases == old(purchases) && sales == old(sales)
    {
      c := Drain(Tail);
    }

    /** The first forEach of calculateWeightedAverage: total quantity and total cost of the lots as they stand. */
    method TotalStock() returns (totalQuantity: real, totalValue: real)
      ensures totalQuantity == Sum(Snapshot(purchases), LotQuantity)
      ensures totalValue == Sum(Snapshot(purchases), LotTotalCost)
    {
      ghost var lots := Snapshot(purchases);
      totalQuantity, totalValue := 0.0, 0.0;
      for i := 0 to |purchases|
        invariant totalQuantity == Sum(lots[..i], LotQuantity)
        invariant totalValue == Sum(lots[..i], LotTotalCost)
      {
        assert lots[..i + 1] == lots[..i] + [purchases[i].Value()];
        SumSnoc(lots[..i], purchases[i].Value(), LotQuantity);
        SumSnoc(lots[..i], purchases[i].Value(), LotTotalCost);
        totalQuantity := totalQuantity + purchases[i].quantity;
        totalValue := totalValue + purchases[i].totalCost;
      }
      assert lots[..|purchases|] == lots;
    }

    /**
     * The second forEach of calculateWeightedAverage: every sale charged at the
     * unit cost, its quantity taken off the running stock count.
     */
    method ChargeSales(unitCost: real, onHand: real)
      returns (details: seq<AverageDetail>, totalCOGS: real, totalSalesRevenue: real, totalQuantity: real)
      ensures details == AverageDetails(sales, unitCost)
      ensures totalCOGS == Sum(details, AverageCOGS)
      ensures totalSalesRevenue == Sum(sales, SaleRevenue)
      ensures totalQuantity == onHand - Sum(sales, SaleQuantity)
    {
      totalCOGS, totalSalesRevenue, totalQuantity := 0.0, 0.0, onHand;
      details := [];
      var sold := sales;
      for k := 0 to |sold|
        invariant details == AverageDetails(sold[..k], unitCost)
        invariant totalCOGS == Sum(details, AverageCOGS)
        invariant totalSalesRevenue == Sum(sold[..k], SaleRevenue)
        invariant totalQuantity == onHand - Sum(sold[..k], SaleQuantity)
      {
        var sale := sold[k];
        SumPrefixStep(sold, k, SaleRevenue);
        SumPrefixStep(sold, k, SaleQuantity);
        AverageDetailsSnoc(sold, k, unitCost);
        totalSalesRevenue := totalSalesRevenue + sale.totalRevenue;
        var detail := Charge(sale, unitCost);
        totalCOGS := totalCOGS + detail.totalCOGS;
        totalQuantity := totalQuantity - sale.quantity;
        SumSnoc(details, detail, AverageCOGS);
        details := details + [detail];
      }
      assert sold[..|sold|] == sold;
    }

    /**
     * calculateWeightedAverage: one unit cost from the lots' current quantities
     * and their original total costs, charged to every sale.
     */
    method CalculateWeightedAverage() returns (r: AverageCosting)
      ensures r == AverageCostingOf(Snapshot(purchases), sales)
    {
      var onHand, totalValue := TotalStock();
      var unitCost := UnitCost(onHand, totalValue);
      var details, totalCOGS, totalSalesRevenue, totalQuantity := ChargeSales(unitCost, onHand);
      var endingInventoryValue := StockValue(totalQuantity, unitCost);
      var grossProfit := totalSalesRevenue - totalCOGS;
      r := AverageCosting(totalCOGS, endingInventoryValue, grossProfit, Margin(grossProfit, totalSalesRevenue),
                          details, unitCost, totalQuantity);
      AverageCostingFrom(Snapshot(purchases), sales, onHand, totalValue, r);
    }

    /**
     * calculateAndDisplay: collect the rows; refuse unless both lists are
     * nonempty; then FIFO, LIFO and the weighted average, in that order, on
     * this one purchase list.
     */
    method CalculateAndDisplay(purchaseRows: seq<RawRow>, saleRows: seq<RawRow>) returns (r: Option<Report>)
      modifies this
      ensures r == Calculate(purchaseRows, saleRows)
      ensures sales == Sales(saleRows) && Distinct(purchases)
      ensures r.None? ==> Snapshot(purchases) == Purchases(purchaseRows)
      ensures r.Some? ==> Snapshot(purchases) == LifoAfterFifo(Purchases(purchaseRows), Sales(saleRows)).lots
    {
      CollectData(purchaseRows, saleRows);
      if |purchases| == 0 || |sales| == 0 {
        return None;
      }
      var report := RunEngines();
      r := Some(report);
    }

    /** The second half of calculateAndDisplay: FIFO, LIFO and the weighted average, in that order. */
    method RunEngines() returns (report: Report)
      requires Distinct(purchases)
      modifies set l | l in purchases
      ensures report == ComposedReport(old(Snapshot(purchases)), sales)
      ensures Snapshot(purchases) == LifoAfterFifo(old(Snapshot(purchases)), sales).lots
      ensures purchases == old(purchases) && sales == old(sales)
    {
      ghost var entered, sold := Snapshot(purchases), sales;
      var fifo := CalculateFIFO();
      assert fifo == CostingOf(FifoRun(entered, sold), sold);
      var lifo := CalculateLIFO();
      assert lifo == CostingOf(LifoAfterFifo(entered, sold), sold);
      var wa := CalculateWeightedAverage();
      assert wa == AverageCostingOf(LifoAfterFifo(entered, sold).lots, sold);
      report := Report(fifo, lifo, wa, ImpactOf(fifo, lifo, wa));
    }

    /** An engine run on new lot objects holding the given values. */
    method RestockAndDrain(entered: seq<LotValue>, end: End) returns (c: Costing)
      modifies this
      ensures c == QueueCosting(entered, end, old(sales)) && sales == old(sales)
    {
      Stock(entered);
      c := Drain(end);
    }

    /** The calculation with the purchase lots restocked from the entered values before each engine. */
    method CalculateIndependently(purchaseRows: seq<RawRow>, saleRows: seq<RawRow>) returns (r: Option<Report>)
      modifies this
      ensures r == CalculateIntended(purchaseRows, saleRows)
    {
      CollectData(purchaseRows, saleRows);
      if |purchases| == 0 || |sales| == 0 {
        return None;
      }
      var entered := Snapshot(purchases);
      var fifo := RestockAndDrain(entered, Head);
      var lifo := RestockAndDrain(entered, Tail);
      Stock(entered);
      var wa := CalculateWeightedAverage();
      r := Some(Report(fifo, lifo, wa, ImpactOf(fifo, lifo, wa)));
    }
  }
}
