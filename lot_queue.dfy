/**
 * The FIFO and LIFO engines (calculateFIFO, calculateLIFO) stated on values.
 *
 * The working deque is a copy of the purchase list, so at every moment it is
 * a window lots[lo..hi] of that list: FIFO shifts from the head (lo grows),
 * LIFO pops from the tail (hi shrinks). The two engines differ only in the
 * end the next lot is taken from.
 */
module LotQueue {
  import opened Records
  import opened Sums
  import opened Metrics

  datatype End = Head | Tail

  /** The index of the lot the engine takes next: inventory[0] or inventory[length - 1]. */
  function Pick(end: End, lo: nat, hi: nat): nat
    requires lo < hi
  {
    if end == Head then lo else hi - 1
  }

  /** The breakdown entry for using `used` units of a lot. */
  function Take(lot: LotValue, used: real): Entry {
    Entry(used, lot.unitCost, used * lot.unitCost, lot.date)
  }

  /** The state after one sale: its breakdown, the lots, the window, and what was left unmet. */
  datatype Served = Served(entries: seq<Entry>, lots: seq<LotValue>, lo: nat, hi: nat, unmet: real)

  /** The state after one pass of the inner loop. */
  datatype Step = Step(entry: Entry, lots: seq<LotValue>, lo: nat, hi: nat, toSell: real)

  /**
   * One pass of the inner while loop: take min(still to sell, lot quantity)
   * from the chosen end, decrement that lot, and drop it from the deque once
   * its quantity is at most 0.
   */
  function TakeOne(lots: seq<LotValue>, lo: nat, hi: nat, end: End, toSell: real): (t: Step)
    requires lo < hi <= |lots|
    ensures |t.lots| == |lots| && lo <= t.lo <= t.hi <= hi
    ensures end == Head ==> t.hi == hi
    ensures end == Tail ==> t.lo == lo
    ensures toSell > 0.0 ==> t.hi - t.lo < hi - lo || t.toSell <= 0.0
  {
    var i := Pick(end, lo, hi);
    var used := Min(toSell, lots[i].quantity);
    var left := lots[i := lots[i].(quantity := lots[i].quantity - used)];
    if left[i].quantity > 0.0 then Step(Take(lots[i], used), left, lo, hi, toSell - used)
    else if end == Head then Step(Take(lots[i], used), left, lo + 1, hi, toSell - used)
    else Step(Take(lots[i], used), left, lo, hi - 1, toSell - used)
  }

  /** What one pass does, spelled out for the proofs below. */
  lemma TakeOneFacts(lots: seq<LotValue>, lo: nat, hi: nat, end: End, toSell: real)
    requires lo < hi <= |lots| && toSell > 0.0
    ensures var t := TakeOne(lots, lo, hi, end, toSell);
      var i := Pick(end, lo, hi);
      var used := Min(toSell, lots[i].quantity);
      && t.entry == Take(lots[i], used)
      && t.toSell == toSell - used
      && t.lots == lots[i := lots[i].(quantity := lots[i].quantity - used)]
      && (t.lots[i].quantity > 0.0 ==> t.lo == lo && t.hi == hi && t.toSell == 0.0)
      && (t.lots[i].quantity <= 0.0 ==>
            (end == Head ==> t.lo == lo + 1 && t.hi == hi)
            && (end == Tail ==> t.lo == lo && t.hi == hi - 1))
  {
  }

  /** The inner while loop for one sale: passes until nothing is left to sell or the deque is empty. */
  function Serve(lots: seq<LotValue>, lo: nat, hi: nat, end: End, toSell: real): (s: Served)
    requires lo <= hi <= |lots|
    ensures |s.lots| == |lots| && lo <= s.lo <= s.hi <= hi
    ensures end == Head ==> s.hi == hi
    ensures end == Tail ==> s.lo == lo
    ensures s.unmet > 0.0 ==> s.lo == s.hi
    decreases hi - lo, if toSell > 0.0 then 1 else 0
  {
    if toSell <= 0.0 || lo == hi then Served([], lots, lo, hi, toSell)
    else
      var t := TakeOne(lots, lo, hi, end, toSell);
      var rest := Serve(t.lots, t.lo, t.hi, end, t.toSell);
      rest.(entries := [t.entry] + rest.entries)
  }

  /** The record of one sale, with its COGS the total of its breakdown. */
  function Detail(sale: Sale, entries: seq<Entry>): (d: SaleDetail)
    ensures d.date == sale.date && d.quantity == sale.quantity && d.salePrice == sale.unitPrice
    ensures d.costBreakdown == entries && d.totalCOGS == Sum(d.costBreakdown, EntryCost)
  {
    SaleDetail(sale.date, sale.quantity, sale.unitPrice, entries, Sum(entries, EntryCost))
  }

  /** The units a sale was actually charged for. */
  function Consumed(d: SaleDetail): real {
    Sum(d.costBreakdown, EntryQuantity)
  }

  datatype Run = Run(details: seq<SaleDetail>, lots: seq<LotValue>, lo: nat, hi: nat)

  /** The outer for loop: every sale in order, each against the deque the previous one left. */
  function RunSales(lots: seq<LotValue>, lo: nat, hi: nat, end: End, sales: seq<Sale>): (r: Run)
    requires lo <= hi <= |lots|
    ensures |r.lots| == |lots| && lo <= r.lo <= r.hi <= hi
    ensures end == Head ==> r.hi == hi
    ensures end == Tail ==> r.lo == lo
    ensures |r.details| == |sales|
  {
    if sales == [] then Run([], lots, lo, hi)
    else
      var prev := RunSales(lots, lo, hi, end, sales[..|sales| - 1]);
      var sale := sales[|sales| - 1];
      var s := Serve(prev.lots, prev.lo, prev.hi, end, sale.quantity);
      Run(prev.details + [Detail(sale, s.entries)], s.lots, s.lo, s.hi)
  }

  /**
   * Exactly one record per sale, in sale order, carrying the sale's date,
   * quantity and price, with the sale's COGS the total of its breakdown.
   */
  lemma {:induction false} RunRecordsEverySale(lots: seq<LotValue>, lo: nat, hi: nat, end: End, sales: seq<Sale>, r: Run)
    requires lo <= hi <= |lots|
    requires r == RunSales(lots, lo, hi, end, sales)
    ensures forall k :: 0 <= k < |sales| ==>
        r.details[k].date == sales[k].date && r.details[k].quantity == sales[k].quantity
        && r.details[k].salePrice == sales[k].unitPrice
        && r.details[k].totalCOGS == Sum(r.details[k].costBreakdown, EntryCost)
  {
    if sales != [] {
      RunRecordsEverySale(lots, lo, hi, end, sales[..|sales| - 1], RunSales(lots, lo, hi, end, sales[..|sales| - 1]));
    }
  }

  /**
   * The result record of calculateFIFO / calculateLIFO; the remaining inventory
   * is the deque's lots as they stand when the engine returns.
   */
  datatype Costing = Costing(cogs: real, endingInventory: real, grossProfit: real,
                             profitMargin: real, details: seq<SaleDetail>,
                             remainingInventory: seq<LotValue>)

  /** The result an engine reports for a finished run. */
  function CostingOf(run: Run, sales: seq<Sale>): (c: Costing)
    requires run.lo <= run.hi <= |run.lots|
    ensures c.details == run.details && c.remainingInventory == run.lots[run.lo..run.hi]
    ensures c.cogs == Sum(run.details, DetailCOGS) && c.endingInventory == Sum(c.remainingInventory, OnHandValue)
    ensures c.cogs + c.grossProfit == Sum(sales, SaleRevenue)
    ensures c.profitMargin == Margin(c.grossProfit, Sum(sales, SaleRevenue))
  {
    var cogs := Sum(run.details, DetailCOGS);
    var revenue := Sum(sales, SaleRevenue);
    var remaining := run.lots[run.lo..run.hi];
    Costing(cogs, Sum(remaining, OnHandValue), revenue - cogs,
            Margin(revenue - cogs, revenue), run.details, remaining)
  }

  /** A result record whose fields agree with the running totals a loop gathers is the engine's result. */
  lemma CostingFrom(run: Run, sales: seq<Sale>, c: Costing)
    requires run.lo <= run.hi <= |run.lots|
    requires c.details == run.details && c.remainingInventory == run.lots[run.lo..run.hi]
    requires c.cogs == Sum(run.details, DetailCOGS)
    requires c.endingInventory == Sum(c.remainingInventory, OnHandValue)
    requires c.grossProfit == Sum(sales, SaleRevenue) - c.cogs
    requires c.profitMargin == Margin(c.grossProfit, Sum(sales, SaleRevenue))
    ensures c == CostingOf(run, sales)
  {
  }

  /** An engine run over the whole purchase list. */
  function QueueCosting(lots: seq<LotValue>, end: End, sales: seq<Sale>): Costing {
    CostingOf(RunSales(lots, 0, |lots|, end, sales), sales)
  }

  function WindowQty(lots: seq<LotValue>, lo: nat, hi: nat): real
    requires lo <= hi <= |lots|
  {
    Sum(lots[lo..hi], LotQuantity)
  }

  ghost predicate Nonnegative(lots: seq<LotValue>) {
    forall i :: 0 <= i < |lots| ==> lots[i].quantity >= 0.0
  }

  ghost predicate SalesNonnegative(sales: seq<Sale>) {
    forall k :: 0 <= k < |sales| ==> sales[k].quantity >= 0.0
  }

  /** Only quantities change, and only inside the deque. */
  lemma {:induction false} ServeFrame(lots: seq<LotValue>, lo: nat, hi: nat, end: End, toSell: real, s: Served)
    requires lo <= hi <= |lots|
    requires s == Serve(lots, lo, hi, end, toSell)
    ensures forall i :: 0 <= i < |lots| ==>
        s.lots[i] == lots[i].(quantity := s.lots[i].quantity)
        && (i < lo || hi <= i ==> s.lots[i] == lots[i])
    decreases hi - lo, if toSell > 0.0 then 1 else 0
  {
    if !(toSell <= 0.0 || lo == hi) {
      var t := TakeOne(lots, lo, hi, end, toSell);
      TakeOneFacts(lots, lo, hi, end, toSell);
      ServeFrame(t.lots, t.lo, t.hi, end, t.toSell, Serve(t.lots, t.lo, t.hi, end, t.toSell));
    }
  }

  /**
   * Quantity is conserved: what the lots held before equals what they hold
   * after plus what the breakdown charged, and the sale's quantity is what
   * was charged plus what was left unmet.
   */
  lemma {:induction false} ServeConserves(lots: seq<LotValue>, lo: nat, hi: nat, end: End, toSell: real, s: Served)
    requires lo <= hi <= |lots|
    requires s == Serve(lots, lo, hi, end, toSell)
    ensures Sum(lots, LotQuantity) == Sum(s.lots, LotQuantity) + Sum(s.entries, EntryQuantity)
      && toSell == Sum(s.entries, EntryQuantity) + s.unmet
    decreases hi - lo, if toSell > 0.0 then 1 else 0
  {
    if !(toSell <= 0.0 || lo == hi) {
      var i := Pick(end, lo, hi);
      var t := TakeOne(lots, lo, hi, end, toSell);
      TakeOneFacts(lots, lo, hi, end, toSell);
      SumUpdate(lots, i, t.lots[i], LotQuantity);
      ServeConserves(t.lots, t.lo, t.hi, end, t.toSell, Serve(t.lots, t.lo, t.hi, end, t.toSell));
      SumCons(t.entry, Serve(t.lots, t.lo, t.hi, end, t.toSell).entries, EntryQuantity);
    }
  }

  lemma WindowSplit(lots: seq<LotValue>, lo: nat, hi: nat)
    requires lo < hi <= |lots|
    ensures WindowQty(lots, lo, hi) == lots[lo].quantity + WindowQty(lots, lo + 1, hi)
    ensures WindowQty(lots, lo, hi) == WindowQty(lots, lo, hi - 1) + lots[hi - 1].quantity
  {
    assert lots[lo..hi] == [lots[lo]] + lots[lo + 1..hi];
    SumCons(lots[lo], lots[lo + 1..hi], LotQuantity);
    assert lots[lo..hi][..hi - lo - 1] == lots[lo..hi - 1];
  }

  /** After one pass, the deque holds what it held before less what the pass used. */
  lemma TakeOneWindow(lots: seq<LotValue>, lo: nat, hi: nat, end: End, toSell: real)
    requires lo < hi <= |lots| && toSell > 0.0 && Nonnegative(lots)
    ensures var t := TakeOne(lots, lo, hi, end, toSell);
      WindowQty(t.lots, t.lo, t.hi) == WindowQty(lots, lo, hi) - t.entry.quantity
      && t.entry.quantity == Min(toSell, lots[Pick(end, lo, hi)].quantity)
      && Nonnegative(t.lots)
      && WindowQty(lots, lo, hi) >= lots[Pick(end, lo, hi)].quantity
  {
    var i := Pick(end, lo, hi);
    var t := TakeOne(lots, lo, hi, end, toSell);
    TakeOneFacts(lots, lo, hi, end, toSell);
    WindowSplit(lots, lo, hi);
    WindowSplit(t.lots, lo, hi);
    if end == Head {
      assert t.lots[lo + 1..hi] == lots[lo + 1..hi];
      SumNonnegative(lots[lo + 1..hi], LotQuantity);
    } else {
      assert t.lots[lo..hi - 1] == lots[lo..hi - 1];
      SumNonnegative(lots[lo..hi - 1], LotQuantity);
    }
  }

  /**
   * With lot quantities and the sale quantity not negative, a sale is charged
   * min(quantity, stock in the deque) units, and the deque is left holding
   * the rest; no quantity becomes negative.
   */
  lemma {:induction false} ServeTakesMin(lots: seq<LotValue>, lo: nat, hi: nat, end: End, toSell: real, s: Served)
    requires lo <= hi <= |lots| && toSell >= 0.0 && Nonnegative(lots)
    requires s == Serve(lots, lo, hi, end, toSell)
    ensures Sum(s.entries, EntryQuantity) == Min(toSell, WindowQty(lots, lo, hi))
      && WindowQty(s.lots, s.lo, s.hi) == WindowQty(lots, lo, hi) - Sum(s.entries, EntryQuantity)
      && Nonnegative(s.lots)
    decreases hi - lo, if toSell > 0.0 then 1 else 0
  {
    if lo == hi {
      assert lots[lo..hi] == [];
    } else if toSell <= 0.0 {
      SumNonnegative(lots[lo..hi], LotQuantity);
    } else {
      var t := TakeOne(lots, lo, hi, end, toSell);
      TakeOneFacts(lots, lo, hi, end, toSell);
      TakeOneWindow(lots, lo, hi, end, toSell);
      ServeTakesMin(t.lots, t.lo, t.hi, end, t.toSell, Serve(t.lots, t.lo, t.hi, end, t.toSell));
      SumCons(t.entry, Serve(t.lots, t.lo, t.hi, end, t.toSell).entries, EntryQuantity);
    }
  }

  /** The lot the k-th entry of a sale is drawn from. */
  function Source(end: End, lo: nat, hi: nat, k: nat): int {
    if end == Head then lo + k else hi - 1 - k
  }

  /**
   * There is one breakdown entry per lot the sale removed from the deque, plus
   * one for the lot it stopped in, which then still holds a positive quantity.
   */
  lemma {:induction false} ServeCountsEntries(lots: seq<LotValue>, lo: nat, hi: nat, end: End, toSell: real, s: Served)
    requires lo <= hi <= |lots|
    requires s == Serve(lots, lo, hi, end, toSell)
    ensures var removed := (hi - lo) - (s.hi - s.lo);
      || |s.entries| == removed
      || (|s.entries| == removed + 1 && s.lo < s.hi && s.lots[Pick(end, s.lo, s.hi)].quantity > 0.0)
    decreases hi - lo, if toSell > 0.0 then 1 else 0
  {
    if !(toSell <= 0.0 || lo == hi) {
      var t := TakeOne(lots, lo, hi, end, toSell);
      TakeOneFacts(lots, lo, hi, end, toSell);
      ServeCountsEntries(t.lots, t.lo, t.hi, end, t.toSell, Serve(t.lots, t.lo, t.hi, end, t.toSell));
    }
  }

  /**
   * The breakdown walks the deque from the chosen end: the k-th entry is drawn
   * from the k-th lot from that end, at that lot's cost and date, for exactly
   * the units that lot lost.
   */
  lemma {:induction false} ServeWalksQueue(lots: seq<LotValue>, lo: nat, hi: nat, end: End, toSell: real, s: Served)
    requires lo <= hi <= |lots|
    requires s == Serve(lots, lo, hi, end, toSell)
    ensures forall k :: 0 <= k < |s.entries| ==>
        lo <= Source(end, lo, hi, k) < hi
        && s.entries[k] == Take(lots[Source(end, lo, hi, k)],
                                lots[Source(end, lo, hi, k)].quantity - s.lots[Source(end, lo, hi, k)].quantity)
    decreases hi - lo, if toSell > 0.0 then 1 else 0
  {
    if !(toSell <= 0.0 || lo == hi) {
      var i := Pick(end, lo, hi);
      var t := TakeOne(lots, lo, hi, end, toSell);
      var rest := Serve(t.lots, t.lo, t.hi, end, t.toSell);
      TakeOneFacts(lots, lo, hi, end, toSell);
      assert s == rest.(entries := [t.entry] + rest.entries);
      if t.lots[i].quantity > 0.0 {
        assert s.entries == [t.entry] && s.lots == t.lots;
        assert Source(end, lo, hi, 0) == i;
      } else {
        ServeFrame(t.lots, t.lo, t.hi, end, t.toSell, rest);
        ServeWalksQueue(t.lots, t.lo, t.hi, end, t.toSell, rest);
        WalkStep(lots, lo, hi, end, t, rest, s);
      }
    }
  }

  /** The step of ServeWalksQueue, when the first pass removed its lot from the deque. */
  lemma WalkStep(lots: seq<LotValue>, lo: nat, hi: nat, end: End, t: Step, rest: Served, s: Served)
    requires lo < hi <= |lots| == |t.lots| == |rest.lots|
    requires t.lo <= t.hi
    requires end == Head ==> t.lo == lo + 1 && t.hi == hi
    requires end == Tail ==> t.lo == lo && t.hi == hi - 1
    requires forall j :: 0 <= j < |lots| && j != Pick(end, lo, hi) ==> t.lots[j] == lots[j]
    requires t.entry == Take(lots[Pick(end, lo, hi)], lots[Pick(end, lo, hi)].quantity - t.lots[Pick(end, lo, hi)].quantity)
    requires rest.lots[Pick(end, lo, hi)] == t.lots[Pick(end, lo, hi)]
    requires forall k :: 0 <= k < |rest.entries| ==>
        t.lo <= Source(end, t.lo, t.hi, k) < t.hi
        && rest.entries[k] == Take(t.lots[Source(end, t.lo, t.hi, k)],
                                   t.lots[Source(end, t.lo, t.hi, k)].quantity - rest.lots[Source(end, t.lo, t.hi, k)].quantity)
    requires s == rest.(entries := [t.entry] + rest.entries)
    ensures forall k :: 0 <= k < |s.entries| ==>
        lo <= Source(end, lo, hi, k) < hi
        && s.entries[k] == Take(lots[Source(end, lo, hi, k)],
                                lots[Source(end, lo, hi, k)].quantity - s.lots[Source(end, lo, hi, k)].quantity)
  {
    var i := Pick(end, lo, hi);
    forall k | 0 <= k < |s.entries|
      ensures lo <= Source(end, lo, hi, k) < hi
      ensures s.entries[k] == Take(lots[Source(end, lo, hi, k)],
                                   lots[Source(end, lo, hi, k)].quantity - s.lots[Source(end, lo, hi, k)].quantity)
    {
      if k == 0 {
        assert Source(end, lo, hi, 0) == i;
      } else {
        var j := Source(end, lo, hi, k);
        assert j == Source(end, t.lo, t.hi, k - 1);
        assert s.entries[k] == rest.entries[k - 1];
        assert t.lots[j] == lots[j];
      }
    }
  }

  /** A lot leaves the deque only once its quantity is at most 0. */
  lemma {:induction false} ServeRemovesOnlyEmptied(lots: seq<LotValue>, lo: nat, hi: nat, end: End, toSell: real, s: Served)
    requires lo <= hi <= |lots|
    requires s == Serve(lots, lo, hi, end, toSell)
    ensures forall i :: lo <= i < hi && !(s.lo <= i < s.hi) ==> s.lots[i].quantity <= 0.0
    decreases hi - lo, if toSell > 0.0 then 1 else 0
  {
    if !(toSell <= 0.0 || lo == hi) {
      var t := TakeOne(lots, lo, hi, end, toSell);
      TakeOneFacts(lots, lo, hi, end, toSell);
      ServeRemovesOnlyEmptied(t.lots, t.lo, t.hi, end, t.toSell, Serve(t.lots, t.lo, t.hi, end, t.toSell));
      ServeFrame(t.lots, t.lo, t.hi, end, t.toSell, Serve(t.lots, t.lo, t.hi, end, t.toSell));
    }
  }

  /** Lots further from the chosen end than the breakdown reached are untouched. */
  lemma {:induction false} ServeLeavesUnreached(lots: seq<LotValue>, lo: nat, hi: nat, end: End, toSell: real, s: Served)
    requires lo <= hi <= |lots|
    requires s == Serve(lots, lo, hi, end, toSell)
    ensures && (end == Head ==> forall i :: lo + |s.entries| <= i < hi ==> s.lots[i] == lots[i])
      && (end == Tail ==> forall i :: lo <= i < hi - |s.entries| ==> s.lots[i] == lots[i])
    decreases hi - lo, if toSell > 0.0 then 1 else 0
  {
    if !(toSell <= 0.0 || lo == hi) {
      var t := TakeOne(lots, lo, hi, end, toSell);
      TakeOneFacts(lots, lo, hi, end, toSell);
      ServeLeavesUnreached(t.lots, t.lo, t.hi, end, t.toSell, Serve(t.lots, t.lo, t.hi, end, t.toSell));
    }
  }

  /** Entries never take more than a lot holds, so quantities stay non-negative and only fall. */
  lemma {:induction false} ServeNonnegative(lots: seq<LotValue>, lo: nat, hi: nat, end: End, toSell: real, s: Served)
    requires lo <= hi <= |lots| && Nonnegative(lots)
    requires s == Serve(lots, lo, hi, end, toSell)
    ensures Nonnegative(s.lots)
      && forall i :: 0 <= i < |lots| ==> s.lots[i].quantity <= lots[i].quantity
    decreases hi - lo, if toSell > 0.0 then 1 else 0
  {
    if !(toSell <= 0.0 || lo == hi) {
      var t := TakeOne(lots, lo, hi, end, toSell);
      TakeOneFacts(lots, lo, hi, end, toSell);
      ServeNonnegative(t.lots, t.lo, t.hi, end, t.toSell, Serve(t.lots, t.lo, t.hi, end, t.toSell));
    }
  }

  /** Quantity is conserved over a whole run: initial stock = final stock + all units charged. */
  lemma {:induction false} RunConserves(lots: seq<LotValue>, lo: nat, hi: nat, end: End, sales: seq<Sale>, r: Run)
    requires lo <= hi <= |lots|
    requires r == RunSales(lots, lo, hi, end, sales)
    ensures Sum(lots, LotQuantity) == Sum(r.lots, LotQuantity) + Sum(r.details, Consumed)
  {
    if sales != [] {
      var init, sale := sales[..|sales| - 1], sales[|sales| - 1];
      var prev := RunSales(lots, lo, hi, end, init);
      var s := Serve(prev.lots, prev.lo, prev.hi, end, sale.quantity);
      assert r == Run(prev.details + [Detail(sale, s.entries)], s.lots, s.lo, s.hi);
      RunConserves(lots, lo, hi, end, init, prev);
      ServeConserves(prev.lots, prev.lo, prev.hi, end, sale.quantity, s);
      SumSnoc(prev.details, Detail(sale, s.entries), Consumed);
    }
  }

  /** The arithmetic of one more sale against what an earlier run left. */
  lemma MinAccumulates(sold: real, q: real, stock: real)
    requires sold >= 0.0 && q >= 0.0 && stock >= 0.0
    ensures Min(sold, stock) + Min(q, stock - Min(sold, stock)) == Min(sold + q, stock)
  {
  }

  /**
   * Over a run, the units charged come to min(units sold, stock in the deque
   * at the start); the deque is left with the difference, and no quantity
   * becomes negative. So a run that is not oversold charges every sale in
   * full, and an oversold one charges the whole stock and leaves nothing.
   */
  lemma {:induction false} RunTakesMin(lots: seq<LotValue>, lo: nat, hi: nat, end: End, sales: seq<Sale>, r: Run)
    requires lo <= hi <= |lots| && Nonnegative(lots) && SalesNonnegative(sales)
    requires r == RunSales(lots, lo, hi, end, sales)
    ensures Sum(r.details, Consumed) == Min(Sum(sales, SaleQuantity), WindowQty(lots, lo, hi))
    ensures WindowQty(r.lots, r.lo, r.hi) == WindowQty(lots, lo, hi) - Sum(r.details, Consumed)
  {
    SumNonnegative(lots[lo..hi], LotQuantity);
    if sales != [] {
      var init, sale := sales[..|sales| - 1], sales[|sales| - 1];
      var prev := RunSales(lots, lo, hi, end, init);
      var s := Serve(prev.lots, prev.lo, prev.hi, end, sale.quantity);
      RunSalesLast(lots, lo, hi, end, sales, prev, s);
      RunTakesMin(lots, lo, hi, end, init, prev);
      RunNonnegative(lots, lo, hi, end, init, prev);
      SumNonnegative(init, SaleQuantity);
      ServeTakesMin(prev.lots, prev.lo, prev.hi, end, sale.quantity, s);
      TakesMinStep(prev, s, sale, r, Sum(init, SaleQuantity), Sum(sales, SaleQuantity), WindowQty(lots, lo, hi));
    }
  }

  /** The arithmetic of RunTakesMin's step: one more sale against what the shorter run left. */
  lemma TakesMinStep(prev: Run, s: Served, sale: Sale, r: Run, sold: real, total: real, stock: real)
    requires r == Run(prev.details + [Detail(sale, s.entries)], s.lots, s.lo, s.hi)
    requires prev.lo <= prev.hi <= |prev.lots| && s.lo <= s.hi <= |s.lots|
    requires sold >= 0.0 && sale.quantity >= 0.0 && stock >= 0.0 && total == sold + sale.quantity
    requires Sum(prev.details, Consumed) == Min(sold, stock)
    requires WindowQty(prev.lots, prev.lo, prev.hi) == stock - Sum(prev.details, Consumed)
    requires Sum(s.entries, EntryQuantity) == Min(sale.quantity, WindowQty(prev.lots, prev.lo, prev.hi))
    requires WindowQty(s.lots, s.lo, s.hi) == WindowQty(prev.lots, prev.lo, prev.hi) - Sum(s.entries, EntryQuantity)
    ensures Sum(r.details, Consumed) == Min(total, stock)
    ensures WindowQty(r.lots, r.lo, r.hi) == stock - Sum(r.details, Consumed)
  {
    SumSnoc(prev.details, Detail(sale, s.entries), Consumed);
    MinAccumulates(sold, sale.quantity, stock);
  }

  /** A run over one more sale is the shorter run followed by that sale. */
  lemma RunSalesLast(lots: seq<LotValue>, lo: nat, hi: nat, end: End, sales: seq<Sale>, prev: Run, s: Served)
    requires lo <= hi <= |lots| && sales != []
    requires prev == RunSales(lots, lo, hi, end, sales[..|sales| - 1])
    requires s == Serve(prev.lots, prev.lo, prev.hi, end, sales[|sales| - 1].quantity)
    ensures RunSales(lots, lo, hi, end, sales) == Run(prev.details + [Detail(sales[|sales| - 1], s.entries)], s.lots, s.lo, s.hi)
  {
  }

  lemma {:induction false} RunNonnegative(lots: seq<LotValue>, lo: nat, hi: nat, end: End, sales: seq<Sale>, r: Run)
    requires lo <= hi <= |lots| && Nonnegative(lots)
    requires r == RunSales(lots, lo, hi, end, sales)
    ensures Nonnegative(r.lots)
  {
    if sales != [] {
      var init, sale := sales[..|sales| - 1], sales[|sales| - 1];
      var prev := RunSales(lots, lo, hi, end, init);
      var s := Serve(prev.lots, prev.lo, prev.hi, end, sale.quantity);
      assert r.lots == s.lots;
      RunNonnegative(lots, lo, hi, end, init, prev);
      ServeNonnegative(prev.lots, prev.lo, prev.hi, end, sale.quantity, s);
    }
  }

  /**
   * On fresh lots (every quantity in the deque positive) a run leaves the
   * lots it passed used up and every lot still in the deque positive.
   */
  lemma {:induction false} RunEmptiesPassedLots(lots: seq<LotValue>, lo: nat, hi: nat, end: End, sales: seq<Sale>, r: Run)
    requires lo <= hi <= |lots| && Nonnegative(lots)
    requires r == RunSales(lots, lo, hi, end, sales)
    requires forall i :: lo <= i < hi ==> lots[i].quantity > 0.0
    ensures forall i :: lo <= i < hi && !(r.lo <= i < r.hi) ==> r.lots[i].quantity == 0.0
    ensures forall i :: r.lo <= i < r.hi ==> r.lots[i].quantity > 0.0
  {
    if sales != [] {
      var init, sale := sales[..|sales| - 1], sales[|sales| - 1];
      var prev := RunSales(lots, lo, hi, end, init);
      var s := Serve(prev.lots, prev.lo, prev.hi, end, sale.quantity);
      RunSalesLast(lots, lo, hi, end, sales, prev, s);
      RunEmptiesPassedLots(lots, lo, hi, end, init, prev);
      RunNonnegative(lots, lo, hi, end, init, prev);
      ServeNonnegative(prev.lots, prev.lo, prev.hi, end, sale.quantity, s);
      ServeFrame(prev.lots, prev.lo, prev.hi, end, sale.quantity, s);
      ServeRemovesOnlyEmptied(prev.lots, prev.lo, prev.hi, end, sale.quantity, s);
      ServeLeavesUnreached(prev.lots, prev.lo, prev.hi, end, sale.quantity, s);
      ServeCountsEntries(prev.lots, prev.lo, prev.hi, end, sale.quantity, s);
      EmptiesStep(lo, hi, end, prev, s);
    }
  }

  /** The step of RunEmptiesPassedLots: what one sale does to the deque, from the facts about Serve. */
  lemma EmptiesStep(lo: nat, hi: nat, end: End, prev: Run, s: Served)
    requires lo <= prev.lo <= prev.hi <= hi <= |prev.lots| == |s.lots| && prev.lo <= s.lo <= s.hi <= prev.hi
    requires forall i :: lo <= i < hi && !(prev.lo <= i < prev.hi) ==> prev.lots[i].quantity == 0.0
    requires forall i :: prev.lo <= i < prev.hi ==> prev.lots[i].quantity > 0.0
    requires Nonnegative(s.lots)
    requires forall i :: 0 <= i < |prev.lots| ==>
        s.lots[i] == prev.lots[i].(quantity := s.lots[i].quantity)
        && (i < prev.lo || prev.hi <= i ==> s.lots[i] == prev.lots[i])
    requires forall i :: prev.lo <= i < prev.hi && !(s.lo <= i < s.hi) ==> s.lots[i].quantity <= 0.0
    requires end == Head ==> forall i :: prev.lo + |s.entries| <= i < prev.hi ==> s.lots[i] == prev.lots[i]
    requires end == Tail ==> forall i :: prev.lo <= i < prev.hi - |s.entries| ==> s.lots[i] == prev.lots[i]
    requires var removed := (prev.hi - prev.lo) - (s.hi - s.lo);
      || |s.entries| == removed
      || (|s.entries| == removed + 1 && s.lo < s.hi && s.lots[Pick(end, s.lo, s.hi)].quantity > 0.0)
    requires end == Head ==> s.hi == prev.hi
    requires end == Tail ==> s.lo == prev.lo
    ensures forall i :: lo <= i < hi && !(s.lo <= i < s.hi) ==> s.lots[i].quantity == 0.0
    ensures forall i :: s.lo <= i < s.hi ==> s.lots[i].quantity > 0.0
  {
    var n := |s.entries|;
    forall i | lo <= i < hi && !(s.lo <= i < s.hi) ensures s.lots[i].quantity == 0.0 {
      if !(prev.lo <= i < prev.hi) {
        assert s.lots[i] == prev.lots[i];
      }
    }
    forall i | s.lo <= i < s.hi ensures s.lots[i].quantity > 0.0 {
      if (end == Head && i >= prev.lo + n) || (end == Tail && i < prev.hi - n) {
        assert s.lots[i] == prev.lots[i];
      } else {
        assert i == Pick(end, s.lo, s.hi);
      }
    }
  }

  /**
   * On fresh lots FIFO leaves a suffix of the list and LIFO a prefix: lots
   * beyond the boundary lot are untouched, and every lot keeps its date and
   * costs.
   */
  lemma {:induction false} RunLeavesUnreached(lots: seq<LotValue>, lo: nat, hi: nat, end: End, sales: seq<Sale>, r: Run)
    requires lo <= hi <= |lots|
    requires r == RunSales(lots, lo, hi, end, sales)
    ensures end == Head ==> forall i :: r.lo < i < hi ==> r.lots[i] == lots[i]
    ensures end == Tail ==> forall i :: lo <= i < r.hi - 1 ==> r.lots[i] == lots[i]
    ensures forall i :: 0 <= i < |lots| ==> r.lots[i] == lots[i].(quantity := r.lots[i].quantity)
  {
    if sales != [] {
      var init := sales[..|sales| - 1];
      var prev := RunSales(lots, lo, hi, end, init);
      var sale := sales[|sales| - 1];
      var s := Serve(prev.lots, prev.lo, prev.hi, end, sale.quantity);
      assert r.lots == s.lots && r.lo == s.lo && r.hi == s.hi;
      RunLeavesUnreached(lots, lo, hi, end, init, prev);
      ServeCountsEntries(prev.lots, prev.lo, prev.hi, end, sale.quantity, s);
      ServeLeavesUnreached(prev.lots, prev.lo, prev.hi, end, sale.quantity, s);
      ServeFrame(prev.lots, prev.lo, prev.hi, end, sale.quantity, s);
    }
  }

  /** Charging `used` units of a lot moves exactly their cost from the lot's on-hand value to the entry. */
  lemma TakeMovesValue(lot: LotValue, used: real)
    ensures OnHandValue(lot) == OnHandValue(lot.(quantity := lot.quantity - used)) + EntryCost(Take(lot, used))
  {
    assert lot.quantity * lot.unitCost == (lot.quantity - used) * lot.unitCost + used * lot.unitCost;
  }

  /** Value is conserved by one sale: on-hand value before = on-hand value after + the sale's COGS. */
  lemma {:induction false} ServeConservesValue(lots: seq<LotValue>, lo: nat, hi: nat, end: End, toSell: real, s: Served)
    requires lo <= hi <= |lots|
    requires s == Serve(lots, lo, hi, end, toSell)
    ensures Sum(lots, OnHandValue) == Sum(s.lots, OnHandValue) + Sum(s.entries, EntryCost)
    decreases hi - lo, if toSell > 0.0 then 1 else 0
  {
    if !(toSell <= 0.0 || lo == hi) {
      var i := Pick(end, lo, hi);
      var t := TakeOne(lots, lo, hi, end, toSell);
      var rest := Serve(t.lots, t.lo, t.hi, end, t.toSell);
      var used := Min(toSell, lots[i].quantity);
      assert t.entry == Take(lots[i], used) && t.lots == lots[i := lots[i].(quantity := lots[i].quantity - used)]
        by { TakeOneFacts(lots, lo, hi, end, toSell); }
      assert Sum(lots, OnHandValue) == Sum(t.lots, OnHandValue) + EntryCost(t.entry) by {
        SumUpdate(lots, i, t.lots[i], OnHandValue);
        TakeMovesValue(lots[i], used);
      }
      ServeConservesValue(t.lots, t.lo, t.hi, end, t.toSell, rest);
      SumCons(t.entry, rest.entries, EntryCost);
    }
  }

  /** Value is conserved over a run: on-hand value before = on-hand value after + total COGS. */
  lemma {:induction false} RunConservesValue(lots: seq<LotValue>, lo: nat, hi: nat, end: End, sales: seq<Sale>, r: Run)
    requires lo <= hi <= |lots|
    requires r == RunSales(lots, lo, hi, end, sales)
    ensures Sum(lots, OnHandValue) == Sum(r.lots, OnHandValue) + Sum(r.details, DetailCOGS)
  {
    if sales != [] {
      var init, sale := sales[..|sales| - 1], sales[|sales| - 1];
      var prev := RunSales(lots, lo, hi, end, init);
      var s := Serve(prev.lots, prev.lo, prev.hi, end, sale.quantity);
      assert r == Run(prev.details + [Detail(sale, s.entries)], s.lots, s.lo, s.hi);
      RunConservesValue(lots, lo, hi, end, init, prev);
      ServeConservesValue(prev.lots, prev.lo, prev.hi, end, sale.quantity, s);
      SumSnoc(prev.details, Detail(sale, s.entries), DetailCOGS);
    }
  }

  /** A lot leaves the deque during a run only once its quantity is at most 0, and stays so. */
  lemma {:induction false} RunRemovesOnlyEmptied(lots: seq<LotValue>, lo: nat, hi: nat, end: End, sales: seq<Sale>, r: Run)
    requires lo <= hi <= |lots|
    requires r == RunSales(lots, lo, hi, end, sales)
    ensures forall i :: lo <= i < hi && !(r.lo <= i < r.hi) ==> r.lots[i].quantity <= 0.0
  {
    if sales != [] {
      var init, sale := sales[..|sales| - 1], sales[|sales| - 1];
      var prev := RunSales(lots, lo, hi, end, init);
      var s := Serve(prev.lots, prev.lo, prev.hi, end, sale.quantity);
      assert r.lots == s.lots && r.lo == s.lo && r.hi == s.hi;
      RunRemovesOnlyEmptied(lots, lo, hi, end, init, prev);
      ServeRemovesOnlyEmptied(prev.lots, prev.lo, prev.hi, end, sale.quantity, s);
      ServeFrame(prev.lots, prev.lo, prev.hi, end, sale.quantity, s);
      forall i | lo <= i < hi && !(s.lo <= i < s.hi) ensures s.lots[i].quantity <= 0.0 {
        if !(prev.lo <= i < prev.hi) {
          assert s.lots[i] == prev.lots[i];
        }
      }
    }
  }

  /**
   * The accounting identity for an engine run over the whole list with no
   * negative quantities: COGS + ending inventory = the on-hand value of the
   * lots when the engine started.
   */
  lemma QueueCostingBalances(lots: seq<LotValue>, end: End, sales: seq<Sale>)
    requires Nonnegative(lots)
    ensures QueueCosting(lots, end, sales).cogs + QueueCosting(lots, end, sales).endingInventory
            == Sum(lots, OnHandValue)
  {
    var r := RunSales(lots, 0, |lots|, end, sales);
    EndingIsAllOnHand(lots, end, sales);
    RunConservesValue(lots, 0, |lots|, end, sales, r);
  }

  /**
   * With no negative quantities, every lot a run has dropped from the deque
   * holds nothing, so the ending inventory is the on-hand value of all the lots.
   */
  lemma EndingIsAllOnHand(lots: seq<LotValue>, end: End, sales: seq<Sale>)
    requires Nonnegative(lots)
    ensures QueueCosting(lots, end, sales).endingInventory
            == Sum(RunSales(lots, 0, |lots|, end, sales).lots, OnHandValue)
  {
    var r := RunSales(lots, 0, |lots|, end, sales);
    RunRemovesOnlyEmptied(lots, 0, |lots|, end, sales, r);
    RunNonnegative(lots, 0, |lots|, end, sales, r);
    WindowHoldsAllValue(r.lots, r.lo, r.hi);
  }

  /** A run over the whole list leaves the stock less min(units sold, stock). */
  lemma RunLeavesQuantity(lots: seq<LotValue>, end: End, sales: seq<Sale>)
    requires Nonnegative(lots) && SalesNonnegative(sales)
    ensures Sum(RunSales(lots, 0, |lots|, end, sales).lots, LotQuantity)
            == Sum(lots, LotQuantity) - Min(Sum(sales, SaleQuantity), Sum(lots, LotQuantity))
  {
    var r := RunSales(lots, 0, |lots|, end, sales);
    RunConserves(lots, 0, |lots|, end, sales, r);
    RunTakesMin(lots, 0, |lots|, end, sales, r);
    assert lots[0..|lots|] == lots;
  }

  /** A run changes quantities only, so the lots' total cost fields add up as before. */
  lemma RunKeepsTotalCost(lots: seq<LotValue>, end: End, sales: seq<Sale>)
    ensures Sum(RunSales(lots, 0, |lots|, end, sales).lots, LotTotalCost) == Sum(lots, LotTotalCost)
  {
    var r := RunSales(lots, 0, |lots|, end, sales);
    RunLeavesUnreached(lots, 0, |lots|, end, sales, r);
    forall k | 0 <= k < |lots| ensures LotTotalCost(r.lots[k]) == LotTotalCost(lots[k]) {
      assert r.lots[k] == lots[k].(quantity := r.lots[k].quantity);
    }
    SumPointwise(r.lots, lots, LotTotalCost);
  }

  /** When every lot outside the window holds nothing, the window holds all the on-hand value. */
  lemma WindowHoldsAllValue(lots: seq<LotValue>, lo: nat, hi: nat)
    requires lo <= hi <= |lots|
    requires forall i :: 0 <= i < |lots| && !(lo <= i < hi) ==> lots[i].quantity == 0.0
    ensures Sum(lots, OnHandValue) == Sum(lots[lo..hi], OnHandValue)
  {
    var before, window, after := lots[..lo], lots[lo..hi], lots[hi..];
    assert Sum(lots, OnHandValue) == Sum(before + window, OnHandValue) + Sum(after, OnHandValue) by {
      assert lots == before + window + after;
      SumAppend(before + window, after, OnHandValue);
    }
    assert Sum(before + window, OnHandValue) == Sum(before, OnHandValue) + Sum(window, OnHandValue) by {
      SumAppend(before, window, OnHandValue);
    }
    EmptyLotsHoldNothing(before);
    EmptyLotsHoldNothing(after);
  }

  lemma EmptyLotsHoldNothing(lots: seq<LotValue>)
    requires forall k :: 0 <= k < |lots| ==> lots[k].quantity == 0.0
    ensures Sum(lots, OnHandValue) == 0.0
  {
    forall k | 0 <= k < |lots| ensures OnHandValue(lots[k]) == 0.0 {
      assert lots[k].quantity == 0.0;
    }
    SumZero(lots, OnHandValue);
  }

  /** Quantities that are not negative and add up to nothing are each nothing. */
  lemma {:induction false} NoStockMeansEmpty(lots: seq<LotValue>)
    requires Nonnegative(lots) && Sum(lots, LotQuantity) == 0.0
    ensures forall k :: 0 <= k < |lots| ==> lots[k].quantity == 0.0
  {
    if lots != [] {
      var init := lots[..|lots| - 1];
      SumNonnegative(init, LotQuantity);
      assert lots[|lots| - 1].quantity >= 0.0;
      NoStockMeansEmpty(init);
      forall k | 0 <= k < |lots| ensures lots[k].quantity == 0.0 {
        if k < |init| {
          assert lots[k] == init[k];
        }
      }
    }
  }
}
