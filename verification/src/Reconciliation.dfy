/** Bringing the open KIS lots of one symbol in line with the quantity the broker reports. */
module Reconciliation {
  import opened Orders
  import opened Ledger
  import opened Lots
  import opened LotSums
  import opened Positions

  /** What the broker answers during one reconciliation: average price of the holding, and the
      quote asked for when there is none; None when the quote call raises. */
  datatype Prices = Prices(avg: int, quote: Option<int>)

  /** The clock reading, the market day it falls in, and the two synthetic order ids. */
  datatype Stamps = Stamps(now: int, day: int, closeOrder: int, buyOrder: int)

  /** The session commits, with `ok` true or false in the reply, or rolls back. */
  datatype Outcome =
    | Synced(table: seq<Row>, added: int, closed: int, trades: seq<Trade>, cost: int)
    | NoPrice(table: seq<Row>)
    | RolledBack

  /** Zero when no positive price is known. */
  function PriceOf(prices: Prices): int {
    if prices.avg > 0 then prices.avg
    else if prices.quote.Some? && prices.quote.value > 0 then prices.quote.value
    else 0
  }

  function ClosingCut(table: seq<Row>, symbol: string, held: int, domestic: bool, st: Stamps): Cut {
    var db := OpenQty(table, symbol);
    if db > held + 1
    then CutLoop(Start(table, db - held), Fifo(table, symbol), AtCost(domestic), st.now, st.closeOrder)
    else Start(table, 0)
  }

  function SyntheticLot(symbol: string, diff: int, price: int, st: Stamps): Row {
    Row(symbol, diff, price, RoundCents(diff * price, SHARE), st.now, Some(st.buyOrder), Open)
  }

  function SyntheticTrade(symbol: string, diff: int, price: int, st: Stamps): Trade {
    Trade(symbol, Buy, diff, diff, RoundCents(diff * price, SHARE), 0, Filled, st.day)
  }

  /** _reconcile_kis_symbol_to_db and its domestic twin, after the balance call. */
  function Reconcile(table: seq<Row>, symbol: string, held: int, prices: Prices, domestic: bool, st: Stamps): Outcome {
    var cut := ClosingCut(table, symbol, held, domestic, st);
    var diff := held - OpenQty(cut.table, symbol);
    if diff <= 0 then Synced(cut.table, 0, cut.taken, [], 0)
    else if prices.avg <= 0 && prices.quote.None? then RolledBack
    else
      var price := if prices.avg > 0 then prices.avg else prices.quote.value;
      if price <= 0 then NoPrice(cut.table)
      else
        var lot := SyntheticLot(symbol, diff, price, st);
        Synced(cut.table + [lot], diff, cut.taken, [SyntheticTrade(symbol, diff, price, st)], lot.entryAmount)
  }

  predicate PositiveLots(table: seq<Row>, symbol: string) {
    forall i :: 0 <= i < |table| && OpenKis(table[i], symbol) ==> table[i].qty > 0
  }

  lemma PositiveLotsSelected(table: seq<Row>, symbol: string)
    requires PositiveLots(table, symbol)
    ensures OpenAt(table, Fifo(table, symbol), symbol) && Distinct(Fifo(table, symbol))
    ensures OpenQty(table, symbol) == Prefix(table, Fifo(table, symbol), |Fifo(table, symbol)|)
  {
    FifoCoversOpen(table, symbol);
  }

  /** A positive lot is left after every turn that leaves quantity: the order covers it. */
  lemma {:induction false} CutReaches(f: Cut, order: seq<nat>, mode: Mode, now: int, oid: int, symbol: string)
    requires Indexes(f.table, order) && Distinct(order) && OpenAt(f.table, order, symbol)
    requires mode.AtCost? && 0 <= f.left <= Prefix(f.table, order, |order|)
    ensures CutLoop(f, order, mode, now, oid).left == 0
    decreases |order|
  {
    if order != [] && !Exhausted(f, mode) {
      var f', rest := CutOne(f, order[0], mode, now, oid), order[1..];
      OpenAtRest(f, order, mode, now, oid, symbol);
      forall j | 1 <= j < |order| ensures f'.table[order[j]] == f.table[order[j]] {
        assert order[0] != order[j];
      }
      PrefixShift(f.table, f'.table, order, |order|);
      PrefixNonNegative(f'.table, rest, |rest|, symbol);
      CutReaches(f', rest, mode, now, oid, symbol);
    }
  }

  /** After the closing loop the open quantity exceeds the broker's by at most the tolerance, or
      falls short of it by one unit when that tolerance closed a lot whole. */
  lemma ClosingBrackets(table: seq<Row>, symbol: string, held: int, domestic: bool, st: Stamps)
    requires PositiveLots(table, symbol) && held >= 0
    ensures var db := OpenQty(ClosingCut(table, symbol, held, domestic, st).table, symbol);
      if OpenQty(table, symbol) > held + 1 then held - 1 <= db <= held else db == OpenQty(table, symbol) <= held + 1
  {
    PositiveLotsSelected(table, symbol);
    var db := OpenQty(table, symbol);
    if db > held + 1 {
      var f, order, mode := Start(table, db - held), Fifo(table, symbol), AtCost(domestic);
      CutReaches(f, order, mode, st.now, st.closeOrder, symbol);
      CutLowersOpen(f, order, mode, st.now, st.closeOrder, symbol);
    }
  }

  lemma LotAdded(table: seq<Row>, symbol: string, lot: Row)
    requires OpenKis(lot, symbol)
    ensures OpenQty(table + [lot], symbol) == OpenQty(table, symbol) + lot.qty
  {
  }

  /** A successful reconciliation leaves the broker's quantity open, or one unit more exactly when
      that is what was open before; and doing it again at the same quantity changes nothing,
      whatever prices come back. */
  lemma ReconcileSettles(table: seq<Row>, symbol: string, held: int, prices: Prices, domestic: bool, st: Stamps,
                         prices': Prices, st': Stamps)
    requires PositiveLots(table, symbol) && held >= 0 && st.buyOrder < 0
    requires Reconcile(table, symbol, held, prices, domestic, st).Synced?
    ensures var r := Reconcile(table, symbol, held, prices, domestic, st);
      && OpenQty(r.table, symbol) == held + (if OpenQty(table, symbol) == held + 1 then 1 else 0)
      && Reconcile(r.table, symbol, held, prices', domestic, st') == Synced(r.table, 0, 0, [], 0)
  {
    ClosingBrackets(table, symbol, held, domestic, st);
    var cut := ClosingCut(table, symbol, held, domestic, st);
    var diff := held - OpenQty(cut.table, symbol);
    if diff > 0 {
      var price := if prices.avg > 0 then prices.avg else prices.quote.value;
      LotAdded(cut.table, symbol, SyntheticLot(symbol, diff, price, st));
    }
  }

  lemma {:induction false} CutTakesAll(f: Cut, order: seq<nat>, mode: Mode, now: int, oid: int)
    requires Indexes(f.table, order)
    ensures var r := CutLoop(f, order, mode, now, oid); r.taken - f.taken == f.left - r.left
    decreases |order|
  {
    if order != [] && !Exhausted(f, mode) {
      CutTakesAll(CutOne(f, order[0], mode, now, oid), order[1..], mode, now, oid);
    }
  }

  /** A reconciliation at a fractional quantity first closes one unit too many and then books it as
      bought, exactly when a lot falls one unit short of what is left to close. */
  lemma SurplusBooksOneUnitExactly(table: seq<Row>, symbol: string, held: int, prices: Prices, domestic: bool,
                                   st: Stamps)
    requires PositiveLots(table, symbol) && held >= 0 && OpenQty(table, symbol) > held + 1
    ensures var q, order := OpenQty(table, symbol) - held, Fifo(table, symbol);
      var r := Reconcile(table, symbol, held, prices, domestic, st);
      (r == Synced(ClosingCut(table, symbol, held, domestic, st).table, 0, q, [], 0))
        <==> !OneUnitLarger(table, order, q, 0)
  {
    hide CutLoop, Fifo, PositiveLots, OpenAt, Distinct, OpenQty, OneUnitLarger;
    PositiveLotsSelected(table, symbol);
    var f, order, mode := Start(table, OpenQty(table, symbol) - held), Fifo(table, symbol), AtCost(domestic);
    CutReaches(f, order, mode, st.now, st.closeOrder, symbol);
    CutLowersOpen(f, order, mode, st.now, st.closeOrder, symbol);
    CutTakesAll(f, order, mode, st.now, st.closeOrder);
  }

  // ----- whole shares

  lemma WholeDifference(a: int, b: int)
    requires Whole(a) && Whole(b)
    ensures Whole(a - b)
  {
  }

  lemma SurplusCutKeepsWhole(table: seq<Row>, symbol: string, surplus: int, mode: Mode, now: int, oid: int)
    requires WholeLots(table, symbol) && Whole(surplus) && 0 <= surplus <= OpenQty(table, symbol)
    ensures var cut := CutLoop(Start(table, surplus), Fifo(table, symbol), mode, now, oid);
      WholeLots(cut.table, symbol) && OpenQty(cut.table, symbol) == OpenQty(table, symbol) - surplus
  {
    hide CutLoop, Fifo, OpenQty, WholeLots, WholeAt, Distinct;
    WholeLotsSelected(table, symbol);
    FifoCoversOpen(table, symbol);
    CutOfFifo(table, symbol, surplus, mode, now, oid);
    CutKeepsWhole(Start(table, surplus), Fifo(table, symbol), mode, now, oid, symbol);
  }

  lemma ClosingKeepsWhole(table: seq<Row>, symbol: string, held: int, domestic: bool, st: Stamps)
    requires WholeLots(table, symbol) && held >= 0 && Whole(held)
    ensures var cut := ClosingCut(table, symbol, held, domestic, st);
      && WholeLots(cut.table, symbol)
      && OpenQty(cut.table, symbol) == Min(OpenQty(table, symbol), held)
      && Whole(OpenQty(table, symbol))
  {
    WholeLotsSelected(table, symbol);
    var db := OpenQty(table, symbol);
    if db > held + 1 {
      WholeDifference(db, held);
      SurplusCutKeepsWhole(table, symbol, db - held, AtCost(domestic), st.now, st.closeOrder);
    }
  }

  lemma WholeLotAdded(table: seq<Row>, symbol: string, lot: Row)
    requires WholeLots(table, symbol) && OpenKis(lot, symbol) && lot.qty > 0 && Whole(lot.qty)
    ensures WholeLots(table + [lot], symbol) && OpenQty(table + [lot], symbol) == OpenQty(table, symbol) + lot.qty
  {
  }

  /** With shares missing nothing is closed; they are booked if a price is known. */
  lemma MissingIsBooked(table: seq<Row>, symbol: string, held: int, prices: Prices, domestic: bool, st: Stamps)
    requires held > OpenQty(table, symbol)
    ensures var r := Reconcile(table, symbol, held, prices, domestic, st);
      var missing := held - OpenQty(table, symbol);
      if PriceOf(prices) > 0 then
        && r.Synced? && r.table == table + [SyntheticLot(symbol, missing, PriceOf(prices), st)]
        && r.trades == [SyntheticTrade(symbol, missing, PriceOf(prices), st)]
      else r.RolledBack? || r == NoPrice(table)
  {
    assert ClosingCut(table, symbol, held, domestic, st).table == table;
  }

  lemma BookMissing(table: seq<Row>, symbol: string, held: int, prices: Prices, domestic: bool, st: Stamps)
    requires WholeLots(table, symbol) && Whole(held) && st.buyOrder < 0 && held > OpenQty(table, symbol)
    ensures var r := Reconcile(table, symbol, held, prices, domestic, st);
      var missing := held - OpenQty(table, symbol);
      if PriceOf(prices) > 0 then
        r.Synced? && WholeLots(r.table, symbol) && OpenQty(r.table, symbol) == held
        && r.trades == [SyntheticTrade(symbol, missing, PriceOf(prices), st)]
      else r.RolledBack? || r == NoPrice(table)
  {
    WholeLotsSelected(table, symbol);
    WholeDifference(held, OpenQty(table, symbol));
    MissingIsBooked(table, symbol, held, prices, domestic, st);
    if PriceOf(prices) > 0 {
      WholeLotAdded(table, symbol, SyntheticLot(symbol, held - OpenQty(table, symbol), PriceOf(prices), st));
    }
  }

  lemma CloseSurplus(table: seq<Row>, symbol: string, held: int, prices: Prices, domestic: bool, st: Stamps)
    requires WholeLots(table, symbol) && held >= 0 && Whole(held) && held <= OpenQty(table, symbol)
    ensures var r := Reconcile(table, symbol, held, prices, domestic, st);
      r.Synced? && WholeLots(r.table, symbol) && OpenQty(r.table, symbol) == held && r.trades == []
  {
    ClosingKeepsWhole(table, symbol, held, domestic, st);
  }

  /** On whole shares the match is exact, missing shares are booked as a FILLED BUY, and the
      ledger fails to sync only when shares are missing and no price is known for them. */
  lemma ReconcileIsExactOnWholeShares(table: seq<Row>, symbol: string, held: int, prices: Prices, domestic: bool,
                                      st: Stamps)
    requires WholeLots(table, symbol) && held >= 0 && Whole(held) && st.buyOrder < 0
    ensures var r := Reconcile(table, symbol, held, prices, domestic, st);
      var missing := held - OpenQty(table, symbol);
      && (r.Synced? <==> missing <= 0 || PriceOf(prices) > 0)
      && (r.Synced? ==> WholeLots(r.table, symbol) && OpenQty(r.table, symbol) == held)
      && (r.Synced? ==> r.trades == if missing > 0 then [SyntheticTrade(symbol, missing, PriceOf(prices), st)] else [])
      && (r.NoPrice? ==> r.table == table)
  {
    if held > OpenQty(table, symbol) {
      BookMissing(table, symbol, held, prices, domestic, st);
    } else {
      CloseSurplus(table, symbol, held, prices, domestic, st);
    }
  }

  /** Reconcile, book a sell fill, let the broker's quantity drop by the fill: reconciling again
      finds nothing to do. */
  lemma ReconcileSellReconcile(table: seq<Row>, symbol: string, held: int, prices: Prices, domestic: bool, st: Stamps,
                               requested: int, fill: int, price: int, day: int, oid: int, prices': Prices, st': Stamps)
    requires WholeLots(table, symbol) && held >= 0 && Whole(held) && st.buyOrder < 0
    requires Whole(fill) && 0 < fill <= held && Whole(requested)
    requires Reconcile(table, symbol, held, prices, domestic, st).Synced?
    ensures var r := Reconcile(table, symbol, held, prices, domestic, st);
      var sold := SellFill(r.table, symbol, requested, fill, price, st.now, day, oid);
      && sold.Booked? && sold.trade.filled == fill
      && Reconcile(sold.table, symbol, held - fill, prices', domestic, st') == Synced(sold.table, 0, 0, [], 0)
  {
    ReconcileIsExactOnWholeShares(table, symbol, held, prices, domestic, st);
    var r := Reconcile(table, symbol, held, prices, domestic, st);
    SellFillIsFifo(r.table, symbol, requested, fill, price, st.now, day, oid);
  }
}
