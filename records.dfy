/** The records the inventory calculator works on. */
module Records {

  datatype Option<T> = None | Some(value: T)

  /**
   * One row of the purchase or sale form. A field that is empty or that
   * does not parse as a number is None.
   */
  datatype RawRow = RawRow(date: Option<int>, quantity: Option<real>, price: Option<real>)

  /** The value of a purchase lot at one moment: its fields, with the quantity left at that moment. */
  datatype LotValue = LotValue(date: int, quantity: real, unitCost: real, totalCost: real)

  /** A sale; it is never changed after normalisation. */
  datatype Sale = Sale(date: int, quantity: real, unitPrice: real, totalRevenue: real)

  /** One fragment of a sale, charged to one lot. */
  datatype Entry = Entry(quantity: real, unitCost: real, totalCost: real, purchaseDate: int)

  /** The FIFO or LIFO record of one sale. */
  datatype SaleDetail = SaleDetail(date: int, quantity: real, salePrice: real, costBreakdown: seq<Entry>, totalCOGS: real)

  /**
   * A purchase lot. Only its quantity changes: the engines decrement it in
   * place as they consume the lot.
   */
  class Lot {
    const date: int
    var quantity: real
    const unitCost: real
    const totalCost: real

    constructor (v: LotValue)
      ensures Value() == v
    {
      date := v.date;
      quantity := v.quantity;
      unitCost := v.unitCost;
      totalCost := v.totalCost;
    }

    function Value(): LotValue
      reads this
    {
      LotValue(date, quantity, unitCost, totalCost)
    }
  }

  /** The values of a list of lots in the current heap. */
  function Snapshot(lots: seq<Lot>): (s: seq<LotValue>)
    reads set l | l in lots
    ensures |s| == |lots|
    ensures forall i {:trigger s[i]} :: 0 <= i < |lots| ==> s[i] == lots[i].Value()
  {
    if lots == [] then [] else Snapshot(lots[..|lots| - 1]) + [lots[|lots| - 1].Value()]
  }

  /** No lot object appears twice. */
  predicate Distinct(lots: seq<Lot>) {
    forall i, j :: 0 <= i < j < |lots| ==> lots[i] != lots[j]
  }

  // Projections that the running totals add up.
  function LotQuantity(v: LotValue): real { v.quantity }
  function LotTotalCost(v: LotValue): real { v.totalCost }
  function OnHandValue(v: LotValue): real { v.quantity * v.unitCost }
  function EntryQuantity(e: Entry): real { e.quantity }
  function EntryCost(e: Entry): real { e.totalCost }
  function DetailCOGS(d: SaleDetail): real { d.totalCOGS }
  function SaleQuantity(s: Sale): real { s.quantity }
  function SaleRevenue(s: Sale): real { s.totalRevenue }
}
