/** What runs conserve in the position table: quantity, cost, and every row that is not of the
    KIS ledger. */
module Totals {
  import opened Ledger
  import opened Lots
  import opened LotSums
  import opened Reconciliation
  import opened TradingDay

  function Qty(table: seq<Row>, symbol: string): int {
    Sum(table, QtyWeight(symbol))
  }

  function Cost(table: seq<Row>, symbol: string): int {
    Sum(table, CostWeight(symbol))
  }

  /** A row of another symbol, or one that no KIS order opened. */
  predicate Foreign(r: Row, symbol: string) {
    r.ticker != symbol || r.entryOrder.None? || r.entryOrder.value >= 0
  }

  /** Rows outside the symbol's KIS ledger are untouched, and no row changes its origin. */
  predicate Framed(table: seq<Row>, table': seq<Row>, symbol: string) {
    && |table'| >= |table|
    && (forall k :: 0 <= k < |table| ==> SameOrigin(table[k], table'[k]))
    && (forall k :: 0 <= k < |table| && Foreign(table[k], symbol) ==> table'[k] == table[k])
  }

  /** Half a cent for each domestic reconciliation, nothing otherwise. */
  predicate WithinDrift(d: int, syncs: nat, domestic: bool) {
    if domestic then -CENT * syncs <= 2 * d <= CENT * syncs else d == 0
  }

  lemma CutTotals(table: seq<Row>, q: int, symbol: string, mode: Mode, now: int, oid: int)
    ensures var t := CutLoop(Start(table, q), Fifo(table, symbol), mode, now, oid).table;
      && Qty(t, symbol) == Qty(table, symbol)
      && WithinDrift(Cost(t, symbol) - Cost(table, symbol), 1, mode == AtCost(true))
      && Framed(table, t, symbol)
  {
    var f, order := Start(table, q), Fifo(table, symbol);
    CutConservesQty(f, order, mode, now, oid, symbol);
    CutConservesCost(f, order, mode, now, oid, symbol);
    CutFrames(f, order, mode, now, oid);
    FifoSelects(table, symbol, |table|);
    assert forall k :: 0 <= k < |table| && Foreign(table[k], symbol) ==> k !in order;
  }

  lemma ClosingTotals(table: seq<Row>, symbol: string, held: int, domestic: bool, st: Stamps)
    ensures var t := ClosingCut(table, symbol, held, domestic, st).table;
      && Qty(t, symbol) == Qty(table, symbol)
      && WithinDrift(Cost(t, symbol) - Cost(table, symbol), 1, domestic)
      && Framed(table, t, symbol)
  {
    var db := OpenQty(table, symbol);
    if db > held + 1 {
      CutTotals(table, db - held, symbol, AtCost(domestic), st.now, st.closeOrder);
    }
  }

  lemma LotTotals(table: seq<Row>, lot: Row, symbol: string)
    requires Kis(lot, symbol)
    ensures Qty(table + [lot], symbol) == Qty(table, symbol) + lot.qty
    ensures Cost(table + [lot], symbol) == Cost(table, symbol) + lot.entryAmount
  {
  }

  lemma SyncedTotals(table: seq<Row>, symbol: string, held: int, prices: Prices, domestic: bool, st: Stamps)
    requires st.buyOrder < 0
    ensures var o := Reconcile(table, symbol, held, prices, domestic, st);
      o.Synced? ==>
        && Qty(o.table, symbol) == Qty(table, symbol) + o.added
        && WithinDrift(Cost(o.table, symbol) - Cost(table, symbol) - o.cost, 1, domestic)
        && Framed(table, o.table, symbol)
  {
    ClosingTotals(table, symbol, held, domestic, st);
    var cut := ClosingCut(table, symbol, held, domestic, st);
    var diff := held - OpenQty(cut.table, symbol);
    if diff > 0 && PriceOf(prices) > 0 {
      LotTotals(cut.table, SyntheticLot(symbol, diff, PriceOf(prices), st), symbol);
    }
  }

  /** A reconciliation books the change of cost exactly, unless it is a domestic one that splits a
      lot whose cost is below the cent. */
  lemma SyncedCostExactly(table: seq<Row>, symbol: string, held: int, prices: Prices, domestic: bool, st: Stamps)
    requires PositiveLots(table, symbol) && held >= 0 && st.buyOrder < 0
    requires Reconcile(table, symbol, held, prices, domestic, st).Synced?
    ensures var o := Reconcile(table, symbol, held, prices, domestic, st);
      var q := OpenQty(table, symbol) - held;
      Cost(o.table, symbol) - Cost(table, symbol) == o.cost <==>
        !(domestic && q > 1 && SplitsBelowCent(table, Fifo(table, symbol), q))
  {
    hide CutLoop, Fifo, SplitsBelowCent, OpenAt, PositiveLots;
    PositiveLotsSelected(table, symbol);
    var q, order := OpenQty(table, symbol) - held, Fifo(table, symbol);
    if q > 1 {
      if domestic {
        DomesticCostKeptExactly(Start(table, q), order, st.now, st.closeOrder, symbol);
      } else {
        CutConservesCost(Start(table, q), order, AtCost(false), st.now, st.closeOrder, symbol);
      }
    }
    var cut := ClosingCut(table, symbol, held, domestic, st);
    var diff := held - OpenQty(cut.table, symbol);
    if diff > 0 && PriceOf(prices) > 0 {
      LotTotals(cut.table, SyntheticLot(symbol, diff, PriceOf(prices), st), symbol);
    }
  }

  /** The books of w agree with those of w0 plus everything booked in between. */
  predicate Kept(w0: World, w: World, i: Instrument) {
    && w.syncs >= w0.syncs
    && Qty(w.table, i.symbol) - w.bookedQty == Qty(w0.table, i.symbol) - w0.bookedQty
    && WithinDrift((Cost(w.table, i.symbol) - w.bookedCost) - (Cost(w0.table, i.symbol) - w0.bookedCost),
                   w.syncs - w0.syncs, i.domestic)
    && Framed(w0.table, w.table, i.symbol)
  }

  lemma KeptTransitive(w0: World, w1: World, w2: World, i: Instrument)
    requires Kept(w0, w1, i) && Kept(w1, w2, i)
    ensures Kept(w0, w2, i)
  {
  }

  lemma SyncBooks(w: World, i: Instrument, s: Sync)
    requires SyncSane(s)
    ensures Kept(w, AfterSync(w, Synchronize(w, i, s)), i)
  {
    if !s.raises {
      var st := Stamps(s.now, w.day, s.closeOrder, s.buyOrder);
      SyncedTotals(w.table, i.symbol, w.held, s.prices, i.domestic, st);
      ClosingTotals(w.table, i.symbol, w.held, i.domestic, st);
    }
  }

  lemma {:induction false} ConfirmBooks(w: World, i: Instrument, polls: seq<Poll>, rest: int)
    requires PollsSane(polls, rest)
    ensures Kept(w, Confirm(w, i, polls).0, i)
    decreases |polls|
  {
    if polls != [] {
      var w0 := FillLast(w, polls[0].fill);
      var w1 := AfterSync(w0, Synchronize(w0, i, polls[0].sync));
      SyncBooks(w0, i, polls[0].sync);
      KeptTransitive(w, w0, w1, i);
      ConfirmBooks(w1, i, polls[1..], rest - polls[0].fill);
      KeptTransitive(w, w1, Confirm(w1, i, polls[1..]).0, i);
    }
  }

  lemma SettleBuyBooks(w: World, i: Instrument, b: BuyEnv)
    requires StepSane(w, BuyCall(b))
    ensures Kept(w, SettleBuy(w, i, b), i)
  {
    if b.report.Success? {
      LotTotals(w.table, BookBuy(w, i, b).table[|w.table|], i.symbol);
    } else {
      var n := if |b.polls| > POLLS then POLLS else |b.polls|;
      PollsPrefix(b.polls, b.rest, n);
      assert b.polls[..|b.polls|] == b.polls;
      ConfirmBooks(w, i, b.polls[..n], b.rest);
    }
  }

  lemma StepBooks(w: World, i: Instrument, step: Step)
    requires StepSane(w, step)
    ensures Kept(w, Apply(w, i, step), i)
  {
    match step
    case NextDay(_) =>
    case BuyCall(b) =>
      var w1 := AfterSync(w, Synchronize(w, i, b.first));
      SyncBooks(w, i, b.first);
      var w2 := PlaceBuy(w1, b.filled, b.rest);
      SettleBuyBooks(w2, i, b);
      KeptTransitive(w, w2, SettleBuy(w2, i, b), i);
    case SellCall(s) =>
      var w1 := AfterSync(w, Synchronize(w, i, s.first));
      SyncBooks(w, i, s.first);
      var w2 := w1.(held := w1.held - s.filled);
      var total := OpenQty(w1.table, i.symbol);
      CutTotals(w2.table, s.reported, i.symbol, AtPrice(s.price), s.now, s.order);
      KeptTransitive(w, w2, SettleSell(w2, i, s, total), i);
    case LateFill(_, _) =>
    case LateClose(_) =>
  }

  /** Over any run, with any failures and rollbacks, open plus closed quantity is what was there
      plus what was booked; open plus closed cost as well, but for at most half a cent for each
      domestic reconciliation; and no row outside the symbol's KIS ledger changes. */
  lemma {:induction false} BooksBalance(w: World, i: Instrument, steps: seq<Step>)
    requires RunSane(w, i, steps)
    ensures Kept(w, Run(w, i, steps), i)
    decreases |steps|
  {
    if steps != [] {
      var w1 := Apply(w, i, steps[0]);
      StepBooks(w, i, steps[0]);
      BooksBalance(w1, i, steps[1..]);
      KeptTransitive(w, w1, Run(w, i, steps), i);
    }
  }
}
