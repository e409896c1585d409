/**
 * The sample data set loadSampleData enters: four purchases and three sales,
 * already in date order, and the figures the three engines report on it.
 */
module Sample {
  import opened Records
  import opened Sums
  import opened StableSort
  import opened Normalize
  import opened LotQueue
  import opened Calculator

  /** The purchase rows: 100 at 10, 150 at 12, 200 at 11.50, 120 at 13. */
  const SamplePurchaseRows := [
    RawRow(Some(20240115), Some(100.0), Some(10.0)),
    RawRow(Some(20240210), Some(150.0), Some(12.0)),
    RawRow(Some(20240305), Some(200.0), Some(11.5)),
    RawRow(Some(20240420), Some(120.0), Some(13.0))
  ]

  /** The sale rows: 80 at 18, 120 at 19.50, 150 at 20. */
  const SampleSaleRows := [
    RawRow(Some(20240225), Some(80.0), Some(18.0)),
    RawRow(Some(20240315), Some(120.0), Some(19.5)),
    RawRow(Some(20240425), Some(150.0), Some(20.0))
  ]

  const SampleLots := [
    LotValue(20240115, 100.0, 10.0, 1000.0),
    LotValue(20240210, 150.0, 12.0, 1800.0),
    LotValue(20240305, 200.0, 11.5, 2300.0),
    LotValue(20240420, 120.0, 13.0, 1560.0)
  ]

  const SampleSales := [
    Sale(20240225, 80.0, 18.0, 1440.0),
    Sale(20240315, 120.0, 19.5, 2340.0),
    Sale(20240425, 150.0, 20.0, 3000.0)
  ]

  /** Every sample purchase row is kept, its total the quantity times the price. */
  lemma SampleLotsKept()
    ensures Kept(SamplePurchaseRows, PurchaseOf) == SampleLots
  {
    var rows, lots := SamplePurchaseRows, SampleLots;
    forall i | 0 <= i < 4 ensures PurchaseOf(rows[i]) == Some(lots[i]) {
    }
    KeptStep(rows, 0, PurchaseOf);
    KeptStep(rows, 1, PurchaseOf);
    KeptStep(rows, 2, PurchaseOf);
    KeptStep(rows, 3, PurchaseOf);
    assert rows[..0] == [] && rows[..4] == rows;
    assert lots == [lots[0]] + [lots[1]] + [lots[2]] + [lots[3]];
  }

  /** Every sample sale row is kept, its revenue the quantity times the price. */
  lemma SampleSalesKept()
    ensures Kept(SampleSaleRows, SaleOf) == SampleSales
  {
    var rows, sales := SampleSaleRows, SampleSales;
    forall i | 0 <= i < 3 ensures SaleOf(rows[i]) == Some(sales[i]) {
    }
    KeptStep(rows, 0, SaleOf);
    KeptStep(rows, 1, SaleOf);
    KeptStep(rows, 2, SaleOf);
    assert rows[..0] == [] && rows[..3] == rows;
    assert sales == [sales[0]] + [sales[1]] + [sales[2]];
  }

  /** collectData keeps every sample row and leaves both lists in the order entered. */
  lemma SampleNormalizes()
    ensures Purchases(SamplePurchaseRows) == SampleLots
    ensures Sales(SampleSaleRows) == SampleSales
  {
    SampleLotsOrdered();
    SampleSalesOrdered();
  }

  lemma SampleLotsOrdered()
    ensures Purchases(SamplePurchaseRows) == SampleLots
  {
    SampleLotsKept();
    assert SortedBy(SampleLots, LotDate);
    SortByKeepsSorted(SampleLots, LotDate);
  }

  lemma SampleSalesOrdered()
    ensures Sales(SampleSaleRows) == SampleSales
  {
    SampleSalesKept();
    assert SortedBy(SampleSales, SaleDate);
    SortByKeepsSorted(SampleSales, SaleDate);
  }

  /** The sample lots after FIFO has served the first sale: 20 units left of the first lot. */
  function FifoAfterFirst(): seq<LotValue> {
    SampleLots[0 := SampleLots[0].(quantity := 20.0)]
  }

  /** After the second sale: the first lot empty, 50 units left of the second. */
  function FifoAfterSecond(): seq<LotValue> {
    FifoAfterFirst()[0 := SampleLots[0].(quantity := 0.0)][1 := SampleLots[1].(quantity := 50.0)]
  }

  /** After the third sale: the second lot empty, 100 units left of the third. */
  function FifoAfterThird(): seq<LotValue> {
    FifoAfterSecond()[1 := SampleLots[1].(quantity := 0.0)][2 := SampleLots[2].(quantity := 100.0)]
  }

  /** The first sale, 80 units, comes out of the first lot at 10. */
  lemma SampleFifoFirst()
    ensures Serve(SampleLots, 0, 4, Head, 80.0)
            == Served([Take(SampleLots[0], 80.0)], FifoAfterFirst(), 0, 4, 0.0)
  {
    assert TakeOne(SampleLots, 0, 4, Head, 80.0)
           == Step(Take(SampleLots[0], 80.0), FifoAfterFirst(), 0, 4, 0.0);
  }

  /** The second sale, 120 units: the 20 left at 10, then 100 at 12. */
  lemma SampleFifoSecond()
    ensures Serve(FifoAfterFirst(), 0, 4, Head, 120.0)
            == Served([Take(FifoAfterFirst()[0], 20.0), Take(SampleLots[1], 100.0)], FifoAfterSecond(), 1, 4, 0.0)
  {
    var between := FifoAfterFirst()[0 := SampleLots[0].(quantity := 0.0)];
    assert TakeOne(FifoAfterFirst(), 0, 4, Head, 120.0)
           == Step(Take(FifoAfterFirst()[0], 20.0), between, 1, 4, 100.0);
    assert TakeOne(between, 1, 4, Head, 100.0)
           == Step(Take(SampleLots[1], 100.0), FifoAfterSecond(), 1, 4, 0.0);
    assert Serve(between, 1, 4, Head, 100.0)
           == Served([Take(SampleLots[1], 100.0)], FifoAfterSecond(), 1, 4, 0.0);
  }

  /** The third sale, 150 units: the 50 left at 12, then 100 at 11.50. */
  lemma SampleFifoThird()
    ensures Serve(FifoAfterSecond(), 1, 4, Head, 150.0)
            == Served([Take(FifoAfterSecond()[1], 50.0), Take(SampleLots[2], 100.0)], FifoAfterThird(), 2, 4, 0.0)
  {
    var between := FifoAfterSecond()[1 := SampleLots[1].(quantity := 0.0)];
    assert TakeOne(FifoAfterSecond(), 1, 4, Head, 150.0)
           == Step(Take(FifoAfterSecond()[1], 50.0), between, 2, 4, 100.0);
    assert TakeOne(between, 2, 4, Head, 100.0)
           == Step(Take(SampleLots[2], 100.0), FifoAfterThird(), 2, 4, 0.0);
    assert Serve(between, 2, 4, Head, 100.0)
           == Served([Take(SampleLots[2], 100.0)], FifoAfterThird(), 2, 4, 0.0);
  }

  /** The three sale records FIFO writes on the sample. */
  function FifoDetails(): seq<SaleDetail> {
    [Detail(SampleSales[0], [Take(SampleLots[0], 80.0)]),
     Detail(SampleSales[1], [Take(FifoAfterFirst()[0], 20.0), Take(SampleLots[1], 100.0)]),
     Detail(SampleSales[2], [Take(FifoAfterSecond()[1], 50.0), Take(SampleLots[2], 100.0)])]
  }

  lemma SampleFifoRun()
    ensures RunSales(SampleLots, 0, 4, Head, SampleSales) == Run(FifoDetails(), FifoAfterThird(), 2, 4)
  {
    var sales, ds := SampleSales, FifoDetails();
    SampleFifoFirst();
    SampleFifoSecond();
    SampleFifoThird();
    assert sales[..0] == [];
    PrefixStep(sales, 0);
    PrefixStep(sales, 1);
    PrefixStep(sales, 2);
    assert sales[..3] == sales;
    assert RunSales(SampleLots, 0, 4, Head, sales[..1]) == Run(ds[..1], FifoAfterFirst(), 0, 4);
    assert RunSales(SampleLots, 0, 4, Head, sales[..2]) == Run(ds[..2], FifoAfterSecond(), 1, 4);
  }

  /** Two breakdown entries charge their two costs. */
  lemma PairCost(a: Entry, b: Entry)
    ensures Sum([a, b], EntryCost) == a.totalCost + b.totalCost
  {
    SumSnoc([a], b, EntryCost);
    SumSnoc([], a, EntryCost);
    assert [a] + [b] == [a, b] && [] + [a] == [a];
  }

  lemma SampleFifoCogs()
    ensures Sum(FifoDetails(), DetailCOGS) == 3950.0
  {
    var ds := FifoDetails();
    assert [Take(SampleLots[0], 80.0)][..0] == [];
    PairCost(Take(FifoAfterFirst()[0], 20.0), Take(SampleLots[1], 100.0));
    PairCost(Take(FifoAfterSecond()[1], 50.0), Take(SampleLots[2], 100.0));
    assert ds[0].totalCOGS == 800.0 && ds[1].totalCOGS == 1400.0 && ds[2].totalCOGS == 1750.0;
    assert ds[..2][..1] == ds[..1] && ds[..1][..0] == [] && ds[..3] == ds;
    SumPrefixStep(ds, 0, DetailCOGS);
    SumPrefixStep(ds, 1, DetailCOGS);
    SumPrefixStep(ds, 2, DetailCOGS);
  }

  lemma SampleFifoOnHand()
    ensures Sum(FifoAfterThird()[2..4], OnHandValue) == 2710.0
  {
    var third, fourth := SampleLots[2].(quantity := 100.0), SampleLots[3];
    SampleFifoWindow();
    SumSnoc([third], fourth, OnHandValue);
    SumSnoc([], third, OnHandValue);
    assert [third] + [fourth] == [third, fourth] && [] + [third] == [third];
  }

  /** What FIFO leaves in the deque: 100 units of the third lot and all of the fourth. */
  lemma SampleFifoWindow()
    ensures FifoAfterThird()[2..4] == [SampleLots[2].(quantity := 100.0), SampleLots[3]]
  {
  }

  /** FIFO on the sample charges 800, 1400 and 1750, and leaves 100 units at 11.50 and 120 at 13 on hand. */
  lemma SampleFifo()
    ensures QueueCosting(SampleLots, Head, SampleSales).cogs == 3950.0
    ensures QueueCosting(SampleLots, Head, SampleSales).endingInventory == 2710.0
  {
    SampleFifoRun();
    SampleFifoCogs();
    SampleFifoOnHand();
  }

  /** A sample lot with `q` units left. */
  function Left(k: nat, q: real): LotValue
    requires k < 4
  {
    SampleLots[k].(quantity := q)
  }

  /** What FIFO leaves, and what calculateAndDisplay's LIFO starts from: 100 units of the third lot and all of the fourth. */
  lemma FifoLeaves()
    ensures FifoAfterThird() == [Left(0, 0.0), Left(1, 0.0), Left(2, 100.0), SampleLots[3]]
  {
  }

  /** calculateAndDisplay's LIFO after its first sale: 40 units left of the fourth lot. */
  function LifoAfterFirst(): seq<LotValue> {
    [Left(0, 0.0), Left(1, 0.0), Left(2, 100.0), Left(3, 40.0)]
  }

  /** After the second sale: the fourth lot empty, 20 units left of the third. */
  function LifoAfterSecond(): seq<LotValue> {
    [Left(0, 0.0), Left(1, 0.0), Left(2, 20.0), Left(3, 0.0)]
  }

  /** After the third sale: every lot empty. */
  function LifoAfterThird(): seq<LotValue> {
    [Left(0, 0.0), Left(1, 0.0), Left(2, 0.0), Left(3, 0.0)]
  }

  /** The first sale, 80 units, comes out of the fourth lot at 13. */
  lemma SampleLifoFirst()
    ensures Serve(FifoAfterThird(), 0, 4, Tail, 80.0)
            == Served([Take(SampleLots[3], 80.0)], LifoAfterFirst(), 0, 4, 0.0)
  {
    FifoLeaves();
    assert TakeOne(FifoAfterThird(), 0, 4, Tail, 80.0)
           == Step(Take(SampleLots[3], 80.0), LifoAfterFirst(), 0, 4, 0.0);
  }

  /** The second sale, 120 units: the 40 left at 13, then 80 of the 100 FIFO left at 11.50. */
  lemma SampleLifoSecond()
    ensures Serve(LifoAfterFirst(), 0, 4, Tail, 120.0)
            == Served([Take(SampleLots[3], 40.0), Take(SampleLots[2], 80.0)], LifoAfterSecond(), 0, 3, 0.0)
  {
    var between := [Left(0, 0.0), Left(1, 0.0), Left(2, 100.0), Left(3, 0.0)];
    assert TakeOne(LifoAfterFirst(), 0, 4, Tail, 120.0)
           == Step(Take(SampleLots[3], 40.0), between, 0, 3, 80.0);
    assert TakeOne(between, 0, 3, Tail, 80.0)
           == Step(Take(SampleLots[2], 80.0), LifoAfterSecond(), 0, 3, 0.0);
    assert Serve(between, 0, 3, Tail, 80.0)
           == Served([Take(SampleLots[2], 80.0)], LifoAfterSecond(), 0, 3, 0.0);
  }

  /**
   * The third sale, 150 units: the 20 left at 11.50, then 0 units from each of
   * the two lots FIFO emptied, which are popped; 130 units stay unmet.
   */
  lemma SampleLifoThird()
    ensures Serve(LifoAfterSecond(), 0, 3, Tail, 150.0)
            == Served([Take(SampleLots[2], 20.0), Take(SampleLots[1], 0.0), Take(SampleLots[0], 0.0)],
                      LifoAfterThird(), 0, 0, 130.0)
  {
    var empty := LifoAfterThird();
    assert empty[1 := Left(1, 0.0 - 0.0)] == empty && empty[0 := Left(0, 0.0 - 0.0)] == empty;
    assert TakeOne(empty, 0, 1, Tail, 130.0) == Step(Take(SampleLots[0], 0.0), empty, 0, 0, 130.0);
    assert Serve(empty, 0, 1, Tail, 130.0) == Served([Take(SampleLots[0], 0.0)], empty, 0, 0, 130.0);
    assert TakeOne(empty, 0, 2, Tail, 130.0) == Step(Take(SampleLots[1], 0.0), empty, 0, 1, 130.0);
    assert Serve(empty, 0, 2, Tail, 130.0)
           == Served([Take(SampleLots[1], 0.0), Take(SampleLots[0], 0.0)], empty, 0, 0, 130.0);
    assert TakeOne(LifoAfterSecond(), 0, 3, Tail, 150.0) == Step(Take(SampleLots[2], 20.0), empty, 0, 2, 130.0);
  }

  /** The three sale records the composed LIFO writes on the sample. */
  function LifoDetails(): seq<SaleDetail> {
    [Detail(SampleSales[0], [Take(SampleLots[3], 80.0)]),
     Detail(SampleSales[1], [Take(SampleLots[3], 40.0), Take(SampleLots[2], 80.0)]),
     Detail(SampleSales[2], [Take(SampleLots[2], 20.0), Take(SampleLots[1], 0.0), Take(SampleLots[0], 0.0)])]
  }

  lemma SampleLifoRun()
    ensures RunSales(FifoAfterThird(), 0, 4, Tail, SampleSales) == Run(LifoDetails(), LifoAfterThird(), 0, 0)
  {
    FifoLeaves();
    var sales, ds := SampleSales, LifoDetails();
    SampleLifoFirst();
    SampleLifoSecond();
    SampleLifoThird();
    assert sales[..0] == [];
    PrefixStep(sales, 0);
    PrefixStep(sales, 1);
    PrefixStep(sales, 2);
    assert sales[..3] == sales;
    assert RunSales(FifoAfterThird(), 0, 4, Tail, sales[..1]) == Run(ds[..1], LifoAfterFirst(), 0, 4);
    assert RunSales(FifoAfterThird(), 0, 4, Tail, sales[..2]) == Run(ds[..2], LifoAfterSecond(), 0, 3);
  }

  /** Three breakdown entries account for their three quantities. */
  lemma TripleQuantity(a: Entry, b: Entry, c: Entry)
    ensures Sum([a, b, c], EntryQuantity) == a.quantity + b.quantity + c.quantity
  {
    SumSnoc([a, b], c, EntryQuantity);
    SumSnoc([a], b, EntryQuantity);
    SumSnoc([], a, EntryQuantity);
    assert [a, b] + [c] == [a, b, c] && [a] + [b] == [a, b] && [] + [a] == [a];
  }

  lemma SampleQuantities()
    ensures Sum(SampleLots, LotQuantity) == 570.0
    ensures Sum(SampleSales, SaleQuantity) == 350.0
  {
    var lots, sales := SampleLots, SampleSales;
    assert lots[..1][..0] == [] && lots[..4] == lots;
    SumPrefixStep(lots, 0, LotQuantity);
    SumPrefixStep(lots, 1, LotQuantity);
    SumPrefixStep(lots, 2, LotQuantity);
    SumPrefixStep(lots, 3, LotQuantity);
    assert sales[..1][..0] == [] && sales[..3] == sales;
    SumPrefixStep(sales, 0, SaleQuantity);
    SumPrefixStep(sales, 1, SaleQuantity);
    SumPrefixStep(sales, 2, SaleQuantity);
  }

  /** The figures calculateAndDisplay reports for the sample. */
  predicate SampleFigures(rep: Report) {
    rep.fifo.cogs == 3950.0 && rep.fifo.endingInventory == 2710.0
    && rep.lifo.cogs == 2710.0 && rep.lifo.endingInventory == 0.0
    && rep.wa.weightedAverageUnitCost == 0.0 && rep.wa.cogs == 0.0
    && rep.wa.endingInventory == 0.0 && rep.wa.remainingQuantity == -350.0
    && rep.impact.fifoLifo.cogs == 1240.0 && rep.impact.fifoLifo.tax == 310.0
    && |rep.lifo.details| == 3 && LastLifoSale(rep.lifo.details[2])
  }

  /**
   * LIFO's record of the last sale: 20 units at 11.50, then 0 units from each
   * of the two lots FIFO emptied (bought 2024-02-10 and 2024-01-15), so only 20
   * of its 150 units are charged.
   */
  predicate LastLifoSale(d: SaleDetail) {
    |d.costBreakdown| == 3
    && d.costBreakdown[0].quantity == 20.0 && d.costBreakdown[0].purchaseDate == 20240305
    && d.costBreakdown[1].quantity == 0.0 && d.costBreakdown[1].purchaseDate == 20240210
    && d.costBreakdown[2].quantity == 0.0 && d.costBreakdown[2].purchaseDate == 20240115
    && Consumed(d) == 20.0 && d.quantity - Consumed(d) == 130.0
  }

  /**
   * calculateAndDisplay on the sample: FIFO charges 3950 and leaves 2710; LIFO,
   * run on what FIFO left, charges those 2710 and leaves nothing; the weighted
   * average then sees no stock, charges nothing and reports -350 units remaining.
   */
  lemma SampleReport()
    ensures Calculate(SamplePurchaseRows, SampleSaleRows).Some?
    ensures SampleFigures(Calculate(SamplePurchaseRows, SampleSaleRows).value)
  {
    SampleNormalizes();
    SampleComposed(SampleLots, SampleSales);
  }

  /**
   * The three engines run one after the other on the sample lots (taken as
   * parameters, so that the proofs reason from the facts above rather than
   * evaluating the engines).
   */
  lemma SampleComposed(lots: seq<LotValue>, sales: seq<Sale>)
    requires lots == SampleLots && sales == SampleSales
    ensures SampleFigures(ComposedReport(lots, sales))
  {
    var rep := ComposedReport(lots, sales);
    SampleEngines(lots, sales, rep);
    SampleLifoBreakdown(lots, sales, rep);
  }

  lemma SampleLifoBreakdown(lots: seq<LotValue>, sales: seq<Sale>, rep: Report)
    requires lots == SampleLots && sales == SampleSales && rep == ComposedReport(lots, sales)
    ensures |rep.lifo.details| == 3 && LastLifoSale(rep.lifo.details[2])
  {
    SampleFifoRun();
    SampleLifoRun();
    assert rep.lifo.details == LifoDetails();
    var d := LifoDetails()[2];
    TripleQuantity(d.costBreakdown[0], d.costBreakdown[1], d.costBreakdown[2]);
    assert d.costBreakdown == [d.costBreakdown[0], d.costBreakdown[1], d.costBreakdown[2]];
  }

  /**
   * The FIFO remaining-inventory table on the sample: the two lots FIFO kept,
   * 100 units at 11.50 and 120 at 13, both shown at 0 units once LIFO has run.
   */
  lemma SampleFifoTable()
    ensures ShownFifoRemaining(SampleLots, SampleSales)
            == [SampleLots[2].(quantity := 0.0), SampleLots[3].(quantity := 0.0)]
  {
    SampleFifoRun();
    SampleLifoRun();
  }

  lemma SampleEngines(lots: seq<LotValue>, sales: seq<Sale>, rep: Report)
    requires lots == SampleLots && sales == SampleSales && rep == ComposedReport(lots, sales)
    ensures rep.fifo.cogs == 3950.0 && rep.fifo.endingInventory == 2710.0
    ensures rep.lifo.cogs == 2710.0 && rep.lifo.endingInventory == 0.0
    ensures rep.wa.weightedAverageUnitCost == 0.0 && rep.wa.cogs == 0.0
    ensures rep.wa.endingInventory == 0.0 && rep.wa.remainingQuantity == -350.0
  {
    SampleQuantities();
    SampleFifo();
    SampleNonnegative();
    ComposedOversold(lots, sales, rep);
  }

  lemma SampleNonnegative()
    ensures Nonnegative(SampleLots) && SalesNonnegative(SampleSales)
  {
  }
}
