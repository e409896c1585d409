/**
 * The weighted-average engine (calculateWeightedAverage) stated on values: one
 * unit cost for the whole purchase list, total cost over total quantity, charged
 * to every sale.
 */
module Average {
  import opened Records
  import opened Sums
  import opened Metrics

  /** The record of one sale under the weighted-average method. */
  datatype AverageDetail = AverageDetail(date: int, quantity: real, salePrice: real,
                                         weightedAvgCost: real, totalCOGS: real)

  /** The result record of calculateWeightedAverage. */
  datatype AverageCosting = AverageCosting(cogs: real, endingInventory: real, grossProfit: real,
                                           profitMargin: real, details: seq<AverageDetail>,
                                           weightedAverageUnitCost: real, remainingQuantity: real)

  function AverageCOGS(d: AverageDetail): real { d.totalCOGS }

  /** Total value over total quantity, or 0 when the quantity is not positive. */
  function UnitCost(quantity: real, value: real): real {
    if quantity > 0.0 then value / quantity else 0.0
  }

  /**
   * Total cost over total quantity of the lots as they stand, or 0 when the
   * total quantity is not positive.
   */
  function AverageUnitCost(lots: seq<LotValue>): (u: real)
    ensures Sum(lots, LotQuantity) > 0.0 ==> u * Sum(lots, LotQuantity) == Sum(lots, LotTotalCost)
    ensures Sum(lots, LotQuantity) <= 0.0 ==> u == 0.0
  {
    UnitCost(Sum(lots, LotQuantity), Sum(lots, LotTotalCost))
  }

  /** What `quantity` units are worth at the unit cost u. */
  function StockValue(quantity: real, u: real): real {
    quantity * u
  }

  /** The record of one sale charged its quantity at the unit cost u. */
  function Charge(sale: Sale, u: real): (d: AverageDetail)
    ensures d.date == sale.date && d.quantity == sale.quantity && d.salePrice == sale.unitPrice
    ensures d.weightedAvgCost == u && d.totalCOGS == d.quantity * d.weightedAvgCost
  {
    AverageDetail(sale.date, sale.quantity, sale.unitPrice, u, StockValue(sale.quantity, u))
  }

  /** One record per sale, in sale order, each charged its quantity at the unit cost u. */
  function AverageDetails(sales: seq<Sale>, u: real): (ds: seq<AverageDetail>)
    ensures |ds| == |sales|
    ensures forall k :: 0 <= k < |sales| ==> ds[k] == Charge(sales[k], u)
  {
    if sales == [] then []
    else AverageDetails(sales[..|sales| - 1], u) + [Charge(sales[|sales| - 1], u)]
  }

  /** A result record whose fields agree with the running totals a loop gathers is the engine's result. */
  lemma AverageCostingFrom(lots: seq<LotValue>, sales: seq<Sale>, quantity: real, value: real, r: AverageCosting)
    requires quantity == Sum(lots, LotQuantity) && value == Sum(lots, LotTotalCost)
    requires r.weightedAverageUnitCost == UnitCost(quantity, value)
    requires r.details == AverageDetails(sales, r.weightedAverageUnitCost)
    requires r.cogs == Sum(r.details, AverageCOGS)
    requires r.remainingQuantity == quantity - Sum(sales, SaleQuantity)
    requires r.endingInventory == StockValue(r.remainingQuantity, r.weightedAverageUnitCost)
    requires r.grossProfit == Sum(sales, SaleRevenue) - r.cogs
    requires r.profitMargin == Margin(r.grossProfit, Sum(sales, SaleRevenue))
    ensures r == AverageCostingOf(lots, sales)
  {
  }

  lemma AverageDetailsSnoc(sales: seq<Sale>, k: nat, u: real)
    requires k < |sales|
    ensures AverageDetails(sales[..k + 1], u) == AverageDetails(sales[..k], u) + [Charge(sales[k], u)]
  {
    assert sales[..k + 1][..k] == sales[..k];
  }

  /**
   * The weighted-average result for a purchase list in the state the lots are
   * in when the engine runs and the normalised sales.
   */
  function AverageCostingOf(lots: seq<LotValue>, sales: seq<Sale>): (r: AverageCosting)
    ensures r.weightedAverageUnitCost == AverageUnitCost(lots) && |r.details| == |sales|
    ensures r.details == AverageDetails(sales, r.weightedAverageUnitCost) && r.cogs == Sum(r.details, AverageCOGS)
    ensures r.endingInventory == StockValue(r.remainingQuantity, r.weightedAverageUnitCost)
    ensures r.remainingQuantity + Sum(sales, SaleQuantity) == Sum(lots, LotQuantity)
    ensures r.cogs + r.grossProfit == Sum(sales, SaleRevenue)
    ensures r.profitMargin == Margin(r.grossProfit, Sum(sales, SaleRevenue))
  {
    var u := AverageUnitCost(lots);
    var details := AverageDetails(sales, u);
    var cogs := Sum(details, AverageCOGS);
    var revenue := Sum(sales, SaleRevenue);
    var remaining := Sum(lots, LotQuantity) - Sum(sales, SaleQuantity);
    AverageCosting(cogs, StockValue(remaining, u), revenue - cogs, Margin(revenue - cogs, revenue),
                   details, u, remaining)
  }

  lemma {:induction false} AverageDetailsCost(sales: seq<Sale>, u: real)
    ensures Sum(AverageDetails(sales, u), AverageCOGS) == StockValue(Sum(sales, SaleQuantity), u)
  {
    if sales != [] {
      var init, last := sales[..|sales| - 1], sales[|sales| - 1];
      AverageDetailsCost(init, u);
      assert AverageDetails(sales, u) == AverageDetails(init, u) + [Charge(last, u)];
      SumSnoc(AverageDetails(init, u), Charge(last, u), AverageCOGS);
      assert Sum(sales, SaleQuantity) == Sum(init, SaleQuantity) + last.quantity;
      StockValueAdds(Sum(init, SaleQuantity), last.quantity, u);
    }
  }

  lemma StockValueAdds(a: real, b: real, u: real)
    ensures StockValue(a, u) + StockValue(b, u) == StockValue(a + b, u)
  {
  }

  /** The COGS is the units sold at the one unit cost, whether or not stock covers them. */
  lemma AverageCogsIsSoldTimesCost(lots: seq<LotValue>, sales: seq<Sale>)
    ensures var r := AverageCostingOf(lots, sales);
      r.cogs == StockValue(Sum(sales, SaleQuantity), r.weightedAverageUnitCost)
  {
    var u := AverageUnitCost(lots);
    AverageDetailsCost(sales, u);
    var r := AverageCostingOf(lots, sales);
    assert r.cogs == Sum(AverageDetails(sales, u), AverageCOGS) && r.weightedAverageUnitCost == u;
  }

  /**
   * When there is stock, COGS and ending inventory split the total purchase cost
   * between them: the ending inventory is the remaining quantity, negative when
   * more was sold than bought, at the same unit cost.
   */
  lemma AverageSplitsCost(lots: seq<LotValue>, sales: seq<Sale>)
    requires Sum(lots, LotQuantity) > 0.0
    ensures AverageCostingOf(lots, sales).cogs + AverageCostingOf(lots, sales).endingInventory
            == Sum(lots, LotTotalCost)
  {
    var r := AverageCostingOf(lots, sales);
    var q, sold, u := Sum(lots, LotQuantity), Sum(sales, SaleQuantity), AverageUnitCost(lots);
    assert r.cogs == StockValue(sold, u) by { AverageCogsIsSoldTimesCost(lots, sales); }
    assert r.endingInventory == StockValue(q - sold, u);
    SplitAtUnitCost(q, sold, u, r.cogs, r.endingInventory);
  }

  lemma SplitAtUnitCost(q: real, sold: real, u: real, cogs: real, ending: real)
    requires cogs == StockValue(sold, u) && ending == StockValue(q - sold, u)
    ensures cogs + ending == StockValue(q, u)
  {
  }

  /** With no stock left in the lots (all drained), every sale is charged at 0 and nothing is on hand. */
  lemma AverageWithoutStock(lots: seq<LotValue>, sales: seq<Sale>)
    requires Sum(lots, LotQuantity) <= 0.0
    ensures AverageCostingOf(lots, sales).weightedAverageUnitCost == 0.0
    ensures AverageCostingOf(lots, sales).cogs == 0.0
    ensures AverageCostingOf(lots, sales).endingInventory == 0.0
    ensures AverageCostingOf(lots, sales).remainingQuantity == Sum(lots, LotQuantity) - Sum(sales, SaleQuantity)
  {
    AverageCogsIsSoldTimesCost(lots, sales);
  }

  /** Lots that all cost c per unit average to c. */
  lemma AverageOfUniformLots(lots: seq<LotValue>, c: real)
    requires forall k :: 0 <= k < |lots| ==> lots[k].totalCost == lots[k].quantity * c
    requires Sum(lots, LotQuantity) > 0.0
    ensures AverageUnitCost(lots) == c
  {
    SumScale(lots, LotQuantity, LotTotalCost, c);
    SameAverage(AverageUnitCost(lots), c, Sum(lots, LotQuantity), Sum(lots, LotTotalCost));
  }

  lemma SameAverage(u: real, c: real, q: real, v: real)
    requires q > 0.0 && u * q == v && v == q * c
    ensures u == c
  {
    CancelPositive(u, c, q);
    CancelPositive(c, u, q);
  }

  /** With every lot costing between lo and hi per unit, the average lies between them. */
  lemma AverageWithinCosts(lots: seq<LotValue>, lo: real, hi: real)
    requires forall k :: 0 <= k < |lots| ==>
      lots[k].quantity >= 0.0 && lots[k].totalCost == lots[k].quantity * lots[k].unitCost
      && lo <= lots[k].unitCost <= hi
    requires Sum(lots, LotQuantity) > 0.0
    ensures lo <= AverageUnitCost(lots) <= hi
  {
    var q, v, u := Sum(lots, LotQuantity), Sum(lots, LotTotalCost), AverageUnitCost(lots);
    TotalCostAbove(lots, lo);
    TotalCostBelow(lots, hi);
    assert q * lo <= v <= q * hi && u * q == v;
    Between(lo, hi, u, q, v);
  }

  /** The total cost is at least the total quantity at the lowest unit cost. */
  lemma TotalCostAbove(lots: seq<LotValue>, lo: real)
    requires forall k :: 0 <= k < |lots| ==>
      lots[k].quantity >= 0.0 && lots[k].totalCost == lots[k].quantity * lots[k].unitCost && lo <= lots[k].unitCost
    ensures Sum(lots, LotQuantity) * lo <= Sum(lots, LotTotalCost)
  {
    var floor := (l: LotValue) => l.quantity * lo;
    forall k | 0 <= k < |lots| ensures floor(lots[k]) <= LotTotalCost(lots[k]) {
      ScaleMonotone(lots[k].quantity, lo, lots[k].unitCost);
    }
    SumScale(lots, LotQuantity, floor, lo);
    SumMonotone(lots, floor, LotTotalCost);
  }

  /** The total cost is at most the total quantity at the highest unit cost. */
  lemma TotalCostBelow(lots: seq<LotValue>, hi: real)
    requires forall k :: 0 <= k < |lots| ==>
      lots[k].quantity >= 0.0 && lots[k].totalCost == lots[k].quantity * lots[k].unitCost && lots[k].unitCost <= hi
    ensures Sum(lots, LotTotalCost) <= Sum(lots, LotQuantity) * hi
  {
    var ceiling := (l: LotValue) => l.quantity * hi;
    forall k | 0 <= k < |lots| ensures LotTotalCost(lots[k]) <= ceiling(lots[k]) {
      ScaleMonotone(lots[k].quantity, lots[k].unitCost, hi);
    }
    SumScale(lots, LotQuantity, ceiling, hi);
    SumMonotone(lots, LotTotalCost, ceiling);
  }

  lemma ScaleMonotone(q: real, a: real, b: real)
    requires q >= 0.0 && a <= b
    ensures q * a <= q * b
  {
    assert q * b - q * a == q * (b - a);
  }

  lemma Between(lo: real, hi: real, u: real, q: real, v: real)
    requires q > 0.0 && q * lo <= v <= q * hi && u * q == v
    ensures lo <= u <= hi
  {
    CancelPositive(lo, u, q);
    CancelPositive(u, hi, q);
  }

  lemma CancelPositive(a: real, b: real, q: real)
    requires q > 0.0 && a * q <= b * q
    ensures a <= b
  {
    assert (b - a) * q >= 0.0;
  }
}
