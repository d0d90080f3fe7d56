/** What sell fills and reconciliations write into the tables, in plain figures. */
module Bookings {
  import opened Orders
  import opened Rounding
  import opened Ledger
  import opened Lots
  import opened LotSums
  import opened Positions
  import opened Reconciliation

  /** a is n / d to the nearest integer. */
  predicate Nearest(a: int, n: int, d: int) {
    -d <= 2 * (a * d - n) <= d
  }

  // ----- closed rows

  /** c units were sold at the price. */
  predicate SoldAt(e: Exit, c: int, price: int) {
    e.price == price && Nearest(e.amount, c * price, SHARE)
  }

  /** The row was closed by this call: all of it sold, or all but 1/10000; or closed at cost. */
  predicate ClosedNow(row: Row, mode: Mode, now: int, oid: int) {
    row.status.Closed? && var e := row.status.exit;
      && e.time == now && e.order == oid
      && match mode
         case AtPrice(price) => SoldAt(e, row.qty, price) || SoldAt(e, row.qty - 1, price)
         case AtCost(_) => e.price == row.entryPrice && e.amount == row.entryAmount && e.pnl == 0
  }

  lemma ClosedRowTells(row: Row, c: int, mode: Mode, now: int, oid: int)
    requires row.qty > 0 && c <= row.qty
    ensures c >= row.qty - 1 ==> ClosedNow(ClosedRow(row, c, mode, now, oid), mode, now, oid)
    ensures ClosedNow(SplitRow(row, c, mode, now, oid), mode, now, oid)
  {
    if mode.AtPrice? {
      RoundsNear(c * mode.price, SHARE);
      assert SoldAt(SplitRow(row, c, mode, now, oid).status.exit, c, mode.price);
      assert SoldAt(ClosedRow(row, c, mode, now, oid).status.exit, c, mode.price);
    }
  }

  /** Every row that a loop closes, whole or split off, is closed at its price, time and order. */
  lemma {:induction false} ClosedRowsTell(f: Cut, order: seq<nat>, mode: Mode, now: int, oid: int, symbol: string)
    requires Indexes(f.table, order) && Distinct(order) && OpenAt(f.table, order, symbol)
    ensures var r := CutLoop(f, order, mode, now, oid);
      forall k :: 0 <= k < |r.table| && r.table[k].status.Closed? && (k < |f.table| ==> f.table[k].status.Open?) ==>
        ClosedNow(r.table[k], mode, now, oid)
    decreases |order|
  {
    hide ClosedNow, ClosedRow, SplitRow;
    if order != [] && !Exhausted(f, mode) {
      var i, rest := order[0], order[1..];
      var row, f' := f.table[i], CutOne(f, i, mode, now, oid);
      ClosedRowTells(row, Min(row.qty, f.left), mode, now, oid);
      OpenAtRest(f, order, mode, now, oid, symbol);
      ClosedRowsTell(f', rest, mode, now, oid, symbol);
      CutFrames(f', rest, mode, now, oid);
      TurnCloses(f, i, mode, now, oid);
      assert forall j :: 0 <= j < |rest| ==> f'.table[rest[j]].status.Open?;
    }
  }

  lemma TurnCloses(f: Cut, i: nat, mode: Mode, now: int, oid: int)
    requires i < |f.table| && f.table[i].qty > 0 && f.table[i].status.Open?
    ensures var f', c := CutOne(f, i, mode, now, oid), Min(f.table[i].qty, f.left);
      forall k :: 0 <= k < |f'.table| && f'.table[k].status.Closed? && (k < |f.table| ==> f.table[k].status.Open?) ==>
        || (c >= f.table[i].qty - 1 && f'.table[k] == ClosedRow(f.table[i], c, mode, now, oid))
        || f'.table[k] == SplitRow(f.table[i], c, mode, now, oid)
  {
  }

  /** To the cent in a domestic reconciliation, else to the smallest amount. */
  function Grain(mode: Mode): int {
    if mode == AtCost(true) then CENT else 1
  }

  /** The part is c units' share of the cost, as near as the grain allows. */
  predicate Proportional(part: int, cost: int, c: int, qty: int, grain: int) {
    (grain == 1 || part % CENT == 0) && -qty * grain <= 2 * (part * qty - cost * c) <= qty * grain
  }

  lemma PartIsProportional(row: Row, c: int, mode: Mode)
    requires row.qty > 0
    ensures Proportional(PartAmount(row, c, mode), row.entryAmount, c, row.qty, Grain(mode))
  {
    if mode == AtCost(true) {
      assert row.qty * CENT > 0;
      RoundsNear(row.entryAmount * c, row.qty * CENT);
      var k := RoundDiv(row.entryAmount * c, row.qty * CENT);
      assert k * (row.qty * CENT) == k * CENT * row.qty;
    } else {
      RoundsNear(row.entryAmount * c, row.qty);
    }
  }

  /** A lot larger than what is left is split: the rest of it stays open under its own origin, the
      part leaves with its share of the cost, and nothing is left to close. */
  lemma SplitTells(f: Cut, i: nat, mode: Mode, now: int, oid: int)
    requires i < |f.table| && f.table[i].qty > f.left + 1 > 1
    ensures var r, row := CutOne(f, i, mode, now, oid), f.table[i];
      && |r.table| == |f.table| + 1 && r.left == 0 && r.taken == f.taken + f.left
      && var kept, part := r.table[i], r.table[|f.table|];
        && kept.qty == row.qty - f.left && part.qty == f.left
        && kept.status == row.status && part.status.Closed?
        && SameOrigin(row, kept) && SameOrigin(row, part)
        && Proportional(part.entryAmount, row.entryAmount, f.left, row.qty, Grain(mode))
        && (mode != AtCost(true) ==> kept.entryAmount + part.entryAmount == row.entryAmount)
  {
    PartIsProportional(f.table[i], f.left, mode);
  }

  /** A smaller one is closed as it stands. */
  lemma WholeTells(f: Cut, i: nat, mode: Mode, now: int, oid: int)
    requires i < |f.table| && 0 < f.table[i].qty <= f.left + 1
    ensures var r, row := CutOne(f, i, mode, now, oid), f.table[i];
      && |r.table| == |f.table| && r.table[i] == row.(status := r.table[i].status) && r.table[i].status.Closed?
      && (forall k :: 0 <= k < |f.table| && k != i ==> r.table[k] == f.table[k])
      && f.left - r.left == r.taken - f.taken == if row.qty < f.left then row.qty else f.left
  {
  }

  // ----- the trade of a sell fill

  function ExitWeight(): Row -> int {
    (r: Row) => if r.status.Closed? then r.status.exit.amount else 0
  }

  lemma TurnAddsExit(f: Cut, i: nat, price: int, now: int, oid: int)
    requires i < |f.table| && f.table[i].status.Open?
    ensures var f' := CutOne(f, i, AtPrice(price), now, oid);
      Sum(f'.table, ExitWeight()) - Sum(f.table, ExitWeight()) == f'.exit - f.exit
  {
    var row, w, mode := f.table[i], ExitWeight(), AtPrice(price);
    if row.qty > 0 {
      var c := Min(row.qty, f.left);
      SumUpdate(f.table, i, ClosedRow(row, c, mode, now, oid), w);
      SumUpdate(f.table, i, KeptRow(row, c, mode), w);
      SumAppend(f.table[i := KeptRow(row, c, mode)], SplitRow(row, c, mode, now, oid), w);
    }
  }

  lemma {:induction false} ExitsAddUp(f: Cut, order: seq<nat>, price: int, now: int, oid: int)
    requires Indexes(f.table, order) && Distinct(order) && AllOpen(f.table, order)
    ensures var r := CutLoop(f, order, AtPrice(price), now, oid);
      Sum(r.table, ExitWeight()) - Sum(f.table, ExitWeight()) == r.exit - f.exit
    decreases |order|
  {
    hide ExitWeight;
    if order != [] && !Exhausted(f, AtPrice(price)) {
      TurnAddsExit(f, order[0], price, now, oid);
      var f', rest := CutOne(f, order[0], AtPrice(price), now, oid), order[1..];
      forall k | 0 <= k < |rest| ensures f'.table[rest[k]] == f.table[order[k + 1]] {
        assert order[0] != order[k + 1];
      }
      ExitsAddUp(f', rest, price, now, oid);
    }
  }

  lemma OnCents(amount: int)
    ensures RoundCents(amount, 1) % CENT == 0 && -CENT <= 2 * (RoundCents(amount, 1) - amount) <= CENT
  {
    RoundsNear(amount, CENT);
  }

  /** The trade row of a sell fill: the executed quantity is what left the lots, the amount is what
      the closed rows brought to the nearest cent, and it is FILLED exactly when no more than 1/10000
      of the requested quantity is missing. */
  lemma SellTradeTells(table: seq<Row>, symbol: string, requested: int, confirmed: int, price: int,
                       now: int, day: int, oid: int)
    requires SellFill(table, symbol, requested, confirmed, price, now, day, oid).Booked?
    requires PositiveLots(table, symbol)
    ensures var r := SellFill(table, symbol, requested, confirmed, price, now, day, oid);
      var t, cut := r.trade, SellCut(table, symbol, confirmed, price, now, oid);
      && t.ticker == symbol && t.side == Sell && t.requested == requested && t.day == day
      && t.filled == cut.taken > 0 && t.status == (if requested <= t.filled + 1 then Filled else Partial)
      && -CENT <= 2 * (t.amount - (Sum(r.table, ExitWeight()) - Sum(table, ExitWeight()))) <= CENT
      && t.amount % CENT == 0 == t.pnl % CENT
  {
    hide CutLoop, Fifo, ExitWeight, PnlWeight, PositiveLots, OpenAt, RoundCents, OpenQty, Sum;
    PositiveLotsSelected(table, symbol);
    FifoCoversOpen(table, symbol);
    var f, order := Start(table, confirmed), Fifo(table, symbol);
    ExitsAddUp(f, order, price, now, oid);
    CutTakesAll(f, order, AtPrice(price), now, oid);
    CutLowersOpen(f, order, AtPrice(price), now, oid, symbol);
    OnCents(SellCut(table, symbol, confirmed, price, now, oid).exit);
    OnCents(SellCut(table, symbol, confirmed, price, now, oid).pnl);
  }

  // ----- the lot and the trade of a reconciliation

  /** A price for missing shares: the broker's average, else a quote. */
  predicate KnownPrice(prices: Prices, p: int) {
    p > 0 && (if prices.avg > 0 then p == prices.avg else prices.quote == Some(p))
  }

  /** An open lot of the missing quantity at the price, dated now. */
  predicate LotOf(lot: Row, symbol: string, missing: int, p: int, st: Stamps) {
    && lot.ticker == symbol && lot.qty == missing && lot.entryPrice == p && lot.status.Open?
    && lot.entryTime == st.now && lot.entryOrder == Some(st.buyOrder)
    && lot.entryAmount % CENT == 0 && Nearest(lot.entryAmount / CENT, missing * p, SHARE * CENT)
  }

  /** The buy that goes with it, of the market day of the reconciliation. */
  predicate BuyOf(t: Trade, lot: Row, st: Stamps) {
    && t.ticker == lot.ticker && t.side == Buy && t.status == Filled && t.day == st.day
    && t.requested == t.filled == lot.qty && t.amount == lot.entryAmount && t.pnl == 0
  }

  lemma SyntheticTells(symbol: string, diff: int, price: int, st: Stamps)
    ensures LotOf(SyntheticLot(symbol, diff, price, st), symbol, diff, price, st)
    ensures BuyOf(SyntheticTrade(symbol, diff, price, st), SyntheticLot(symbol, diff, price, st), st)
  {
    RoundsNear(diff * price, SHARE * CENT);
  }

  /** What a reconciliation books, and when it fails: missing shares are one lot and one buy at a
      known price; without one the session rolls back if the quote raises, and commits what it
      closed if the quote is worthless. */
  lemma ReconcileTells(table: seq<Row>, symbol: string, held: int, prices: Prices, domestic: bool, st: Stamps)
    ensures var r := Reconcile(table, symbol, held, prices, domestic, st);
      var closed := ClosingCut(table, symbol, held, domestic, st).table;
      var missing := held - OpenQty(closed, symbol);
      && (r.RolledBack? <==> missing > 0 && prices.avg <= 0 && prices.quote.None?)
      && (r.NoPrice? <==> missing > 0 && prices.avg <= 0 && prices.quote.Some? && prices.quote.value <= 0)
      && (r.NoPrice? ==> r.table == closed)
      && (r.Synced? && missing <= 0 ==> r.table == closed && r.added == 0 == r.cost && r.trades == [])
      && (r.Synced? && missing > 0 ==>
            && |r.table| == |closed| + 1 && closed <= r.table && |r.trades| == 1
            && var lot := r.table[|closed|];
               exists p :: KnownPrice(prices, p) && LotOf(lot, symbol, missing, p, st) && BuyOf(r.trades[0], lot, st)
                 && r.added == missing && r.cost == lot.entryAmount)
  {
    var missing := held - OpenQty(ClosingCut(table, symbol, held, domestic, st).table, symbol);
    if missing > 0 && PriceOf(prices) > 0 {
      SyntheticTells(symbol, missing, PriceOf(prices), st);
      assert KnownPrice(prices, PriceOf(prices));
    }
  }
}
