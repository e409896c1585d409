/**
 * The derived figures: profit margin with its zero-revenue guard, the
 * pairwise impact differences with their tax effect (displayImpactAnalysis),
 * and the sign classes used to colour them (applyValueColors).
 */
module Metrics {

  /** (profit / revenue) * 100, or 0 when revenue is not positive. */
  function Margin(profit: real, revenue: real): (m: real)
    ensures revenue > 0.0 ==> m * revenue == profit * 100.0
    ensures revenue <= 0.0 ==> m == 0.0
  {
    if revenue > 0.0 then (profit / revenue) * 100.0 else 0.0
  }

  /** A margin lies between 0 and 100 when the cost of goods sold is between 0 and the revenue. */
  lemma MarginBounds(revenue: real, cogs: real)
    requires 0.0 <= cogs <= revenue
    ensures 0.0 <= Margin(revenue - cogs, revenue) <= 100.0
  {
    if revenue > 0.0 {
      var m := Margin(revenue - cogs, revenue);
      assert m * revenue == (revenue - cogs) * 100.0;
    }
  }

  /** The tax rate the impact analysis applies to a COGS difference. */
  const TaxRate: real := 0.25

  /** The figures of one method that the impact analysis compares. */
  datatype Totals = Totals(cogs: real, endingInventory: real)

  datatype Difference = Difference(cogs: real, endingInventory: real, tax: real)

  /** A minus B for one pair of methods; the tax effect is the COGS difference at the tax rate. */
  function Compare(a: Totals, b: Totals): (d: Difference)
    ensures b.cogs + d.cogs == a.cogs && b.endingInventory + d.endingInventory == a.endingInventory
    ensures d.tax == d.cogs * TaxRate
  {
    var cogs := a.cogs - b.cogs;
    Difference(cogs, a.endingInventory - b.endingInventory, cogs * TaxRate)
  }

  datatype Impact = Impact(fifoLifo: Difference, fifoWa: Difference, lifoWa: Difference)

  /**
   * The three pairs the impact analysis shows: FIFO-LIFO, FIFO-WA, LIFO-WA.
   * They are consistent: FIFO-LIFO plus LIFO-WA is FIFO-WA, for every figure.
   */
  function Analyze(fifo: Totals, lifo: Totals, wa: Totals): (i: Impact)
    ensures i.fifoLifo.cogs + i.lifoWa.cogs == i.fifoWa.cogs
    ensures i.fifoLifo.endingInventory + i.lifoWa.endingInventory == i.fifoWa.endingInventory
    ensures i.fifoLifo.tax + i.lifoWa.tax == i.fifoWa.tax
  {
    Impact(Compare(fifo, lifo), Compare(fifo, wa), Compare(lifo, wa))
  }

  function Negate(d: Difference): Difference {
    Difference(-d.cogs, -d.endingInventory, -d.tax)
  }

  /** Swapping the two methods negates every difference. */
  lemma CompareAntisymmetric(a: Totals, b: Totals)
    ensures Compare(b, a) == Negate(Compare(a, b))
    ensures Compare(a, a) == Difference(0.0, 0.0, 0.0)
  {
  }

  /** The tax effect is a quarter of the COGS difference, and it is zero exactly when that is. */
  lemma TaxIsQuarterOfCogs(a: Totals, b: Totals)
    ensures Compare(a, b).tax * 4.0 == Compare(a, b).cogs
    ensures Compare(a, b).tax == 0.0 <==> a.cogs == b.cogs
  {
  }

  datatype Sign = Positive | Negative | Neutral

  /** The colour class of a figure: positive above 0, negative below, neutral otherwise. */
  function Classify(v: real): (c: Sign)
    ensures c == Positive <==> v > 0.0
    ensures c == Negative <==> v < 0.0
    ensures c == Neutral <==> v == 0.0
  {
    if v > 0.0 then Positive else if v < 0.0 then Negative else Neutral
  }

  function Opposite(c: Sign): Sign {
    match c
    case Positive => Negative
    case Negative => Positive
    case Neutral => Neutral
  }

  /** Swapping the two methods of a pair swaps positive and negative classes. */
  lemma ClassifySwapped(a: Totals, b: Totals)
    ensures Classify(Compare(b, a).cogs) == Opposite(Classify(Compare(a, b).cogs))
    ensures Classify(Compare(b, a).endingInventory) == Opposite(Classify(Compare(a, b).endingInventory))
    ensures Classify(Compare(a, b).tax) == Classify(Compare(a, b).cogs)
  {
  }
}
