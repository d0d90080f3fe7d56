/** Booking a confirmed KIS sell fill and reconciling a symbol with the broker's balance. */
module Positions {
  import opened Orders
  import opened Rounding
  import opened Ledger
  import opened Lots
  import opened LotSums

  datatype TradeStatus = Filled | Partial | Failed

  /** A row of the trades table; `day` is the market day its time falls in. */
  datatype Trade = Trade(
    ticker: string, side: Side, requested: int, filled: int, amount: int, pnl: int, status: TradeStatus, day: int)

  predicate IsFilledBuy(t: Trade, symbol: string, day: int) {
    t.ticker == symbol && t.side == Buy && t.status == Filled && t.day == day
  }

  function FilledBuys(trades: seq<Trade>, symbol: string, day: int): nat {
    if trades == [] then 0
    else
      var n := |trades| - 1;
      FilledBuys(trades[..n], symbol, day) + if IsFilledBuy(trades[n], symbol, day) then 1 else 0
  }

  /** The rows of the trades table that count against the day's one buy. */
  ghost function BuysOn(trades: seq<Trade>, symbol: string, day: int): set<nat> {
    set k: nat | k < |trades| && trades[k].ticker == symbol && trades[k].side == Buy
                 && trades[k].status == Filled && trades[k].day == day
  }

  /** Each FILLED BUY of the symbol and the market day counts, once, and nothing else does. */
  lemma {:induction false} FilledBuysCount(trades: seq<Trade>, symbol: string, day: int)
    ensures FilledBuys(trades, symbol, day) == |BuysOn(trades, symbol, day)|
    ensures FilledBuys(trades, symbol, day) == 0 <==> BuysOn(trades, symbol, day) == {}
  {
    if trades != [] {
      var n := |trades| - 1;
      FilledBuysCount(trades[..n], symbol, day);
      var earlier := BuysOn(trades[..n], symbol, day);
      assert BuysOn(trades, symbol, day) == earlier + if IsFilledBuy(trades[n], symbol, day) then {n} else {};
    }
  }

  // ----- sell fill

  /** No quantity confirmed; no lot to book it on; or booked. */
  datatype SellResult = Rejected | Unmatched | Booked(table: seq<Row>, trade: Trade, touched: seq<nat>)

  function SellCut(table: seq<Row>, symbol: string, confirmed: int, price: int, now: int, oid: int): Cut {
    CutLoop(Start(table, confirmed), Fifo(table, symbol), AtPrice(price), now, oid)
  }

  function SellTrade(cut: Cut, symbol: string, requested: int, executed: int, day: int): Trade {
    Trade(symbol, Sell, requested, executed, RoundCents(cut.exit, 1), RoundCents(cut.pnl, 1),
          if executed >= requested - 1 then Filled else Partial, day)
  }

  /** _apply_kis_sell_fill, when the session commits. */
  function SellFill(table: seq<Row>, symbol: string, requested: int, confirmed: int, price: int,
                    now: int, day: int, oid: int)
    : SellResult
  {
    if confirmed <= 0 then Rejected
    else
      var cut := SellCut(table, symbol, confirmed, price, now, oid);
      var executed := confirmed - (if cut.left < 0 then 0 else cut.left);
      if executed <= 0 then Unmatched
      else Booked(cut.table, SellTrade(cut, symbol, requested, executed, day), cut.touched)
  }

  // ----- the selection covers the open quantity

  function Total(table: seq<Row>, order: seq<nat>): int
    requires Indexes(table, order)
  {
    if order == [] then 0 else table[order[0]].qty + Total(table, order[1..])
  }

  lemma {:induction false} TotalInsert(table: seq<Row>, order: seq<nat>, i: nat)
    requires i < |table| && Indexes(table, order)
    ensures Total(table, Insert(table, order, i)) == Total(table, order) + table[i].qty
  {
    if order != [] && table[order[0]].entryTime <= table[i].entryTime {
      TotalInsert(table, order[1..], i);
      var r := Insert(table, order, i);
      assert r[1..] == Insert(table, order[1..], i);
    } else {
      assert ([i] + order)[1..] == order;
    }
  }

  lemma {:induction false} TotalOfFifo(table: seq<Row>, symbol: string, n: nat)
    requires n <= |table|
    ensures Total(table, FifoOf(table, symbol, n)) == Sum(table[..n], OpenWeight(symbol))
  {
    if n > 0 {
      TotalOfFifo(table, symbol, n - 1);
      assert table[..n][..n - 1] == table[..n - 1];
      if OpenKis(table[n - 1], symbol) {
        TotalInsert(table, FifoOf(table, symbol, n - 1), n - 1);
      }
    }
  }

  lemma {:induction false} TotalIsPrefix(table: seq<Row>, order: seq<nat>)
    requires Indexes(table, order)
    ensures Total(table, order) == Prefix(table, order, |order|)
    decreases |order|
  {
    if order != [] {
      TotalIsPrefix(table, order[1..]);
      PrefixShift(table, table, order, |order|);
    }
  }

  lemma FifoCoversOpen(table: seq<Row>, symbol: string)
    ensures var order := Fifo(table, symbol);
      && Prefix(table, order, |order|) == OpenQty(table, symbol)
      && SelectsOpen(table, symbol, |table|, order) && Distinct(order)
  {
    var order := Fifo(table, symbol);
    FifoSelects(table, symbol, |table|);
    TotalOfFifo(table, symbol, |table|);
    TotalIsPrefix(table, order);
    assert table[..|table|] == table;
    forall a, b | 0 <= a < b < |order| ensures order[a] != order[b] {
      assert Before(table, order[a], order[b]);
    }
  }

  lemma WholeLotsSelected(table: seq<Row>, symbol: string)
    requires WholeLots(table, symbol)
    ensures WholeAt(table, Fifo(table, symbol)) && OpenAt(table, Fifo(table, symbol), symbol)
    ensures OpenQty(table, symbol) >= 0 && Whole(OpenQty(table, symbol))
  {
    FifoCoversOpen(table, symbol);
    PrefixPositive(table, Fifo(table, symbol), |Fifo(table, symbol)|);
  }

  // ----- what a sell fill means

  /** What a loop over whole-share lots does to the table: each lot gives its first-in first-out
      share of q, at most one is split, and nothing else is closed. */
  ghost predicate FifoCut(table: seq<Row>, cut: Cut, symbol: string, q: int, mode: Mode, now: int, oid: int) {
    var order, open := Fifo(table, symbol), OpenQty(table, symbol);
    && WholeAt(table, order) && |cut.table| >= |table|
    && cut.left == LeftOver(q, open) && cut.taken == q - cut.left
    && AllTaken(table, cut.table, order, q, mode, now, oid)
    && SplitsAtMostOnce(table, cut.table[|table|..], order, q, mode, now, oid)
    && OpenQty(cut.table, symbol) == open - cut.taken
  }

  /** On whole shares nothing is closed beyond what was taken. */
  lemma {:induction false} WholeCutLowersOpen(f: Cut, order: seq<nat>, mode: Mode, now: int, oid: int, symbol: string)
    requires Indexes(f.table, order) && Distinct(order) && WholeAt(f.table, order) && OpenAt(f.table, order, symbol)
    requires f.left >= 0 && Whole(f.left)
    ensures var r := CutLoop(f, order, mode, now, oid);
      OpenQty(r.table, symbol) == OpenQty(f.table, symbol) - (f.left - r.left)
    decreases |order|
  {
    if order != [] && !Exhausted(f, mode) {
      CutOneOpen(f, order[0], mode, now, oid, symbol);
      OpenAtRest(f, order, mode, now, oid, symbol);
      CutFirstLot(f, order, mode, now, oid);
      CutFirstRest(f, order, mode, now, oid);
      WholeCutLowersOpen(CutOne(f, order[0], mode, now, oid), order[1..], mode, now, oid, symbol);
    }
  }

  lemma CutOfFifo(table: seq<Row>, symbol: string, q: int, mode: Mode, now: int, oid: int)
    requires WholeLots(table, symbol) && Whole(q) && q >= 0
    ensures FifoCut(table, CutLoop(Start(table, q), Fifo(table, symbol), mode, now, oid), symbol, q, mode, now, oid)
    ensures OpenQty(table, symbol) >= 0 && Whole(OpenQty(table, symbol))
  {
    var order, f := Fifo(table, symbol), Start(table, q);
    WholeLotsSelected(table, symbol);
    FifoCoversOpen(table, symbol);
    var cut := CutLoop(f, order, mode, now, oid);
    CutLeavesOver(f, order, mode, now, oid, cut);
    CutIsFifo(f, order, mode, now, oid, cut);
    CutSplitsAtMostOnce(f, order, mode, now, oid, cut);
    WholeCutLowersOpen(f, order, mode, now, oid, symbol);
  }

  /** A fill of whole shares closes the oldest lots first; the executed quantity is what the
      open lots can cover, and the trade is FILLED exactly when that is what was requested. */
  lemma SellFillIsFifo(table: seq<Row>, symbol: string, requested: int, confirmed: int, price: int,
                       now: int, day: int, oid: int)
    requires WholeLots(table, symbol) && Whole(requested) && Whole(confirmed) && confirmed > 0
    ensures var r := SellFill(table, symbol, requested, confirmed, price, now, day, oid);
      var cut := SellCut(table, symbol, confirmed, price, now, oid);
      var open := OpenQty(table, symbol);
      && FifoCut(table, cut, symbol, confirmed, AtPrice(price), now, oid)
      && (r.Unmatched? <==> open == 0)
      && (r.Booked? <==> open != 0)
      && (r.Booked? ==> r.table == cut.table && r.trade.filled == Min(confirmed, open) == cut.taken)
      && (r.Booked? ==> (r.trade.status == Filled <==> r.trade.filled >= requested))
  {
    CutOfFifo(table, symbol, confirmed, AtPrice(price), now, oid);
    var filled := Min(confirmed, OpenQty(table, symbol));
    assert Whole(filled);
    assert filled >= requested - 1 <==> filled >= requested;
  }

  lemma CutOneKeepsWhole(f: Cut, i: nat, mode: Mode, now: int, oid: int, symbol: string)
    requires i < |f.table| && WholeLots(f.table, symbol) && Whole(f.left) && f.left > 0
    requires f.table[i].qty > 0 && Whole(f.table[i].qty)
    ensures WholeLots(CutOne(f, i, mode, now, oid).table, symbol)
  {
    var row, c := f.table[i], Min(f.table[i].qty, f.left);
    if !ClosesWhole(row, c) {
      assert Whole(row.qty - c) && row.qty - c > 0;
    }
  }

  /** Whole-share lots stay whole-share lots. */
  lemma {:induction false} CutKeepsWhole(f: Cut, order: seq<nat>, mode: Mode, now: int, oid: int, symbol: string)
    requires Indexes(f.table, order) && WholeLots(f.table, symbol) && Whole(f.left) && f.left >= 0
    requires WholeAt(f.table, order) && Distinct(order)
    ensures WholeLots(CutLoop(f, order, mode, now, oid).table, symbol)
    decreases |order|
  {
    if order != [] && !Exhausted(f, mode) {
      CutOneKeepsWhole(f, order[0], mode, now, oid, symbol);
      CutFirstLot(f, order, mode, now, oid);
      CutFirstRest(f, order, mode, now, oid);
      CutKeepsWhole(CutOne(f, order[0], mode, now, oid), order[1..], mode, now, oid, symbol);
    }
  }

  // ----- profit and loss

  function PnlWeight(): Row -> int {
    (r: Row) => if r.status.Closed? then r.status.exit.pnl else 0
  }

  lemma CutOneBooksPnl(f: Cut, i: nat, price: int, now: int, oid: int)
    requires i < |f.table| && f.table[i].status.Open?
    ensures var f' := CutOne(f, i, AtPrice(price), now, oid);
      && Sum(f'.table, PnlWeight()) - Sum(f.table, PnlWeight()) == f'.pnl - f.pnl
      && f'.pnl - f.pnl == (f'.exit - f.exit) - (f'.entry - f.entry)
  {
    var row, w, mode := f.table[i], PnlWeight(), AtPrice(price);
    if row.qty > 0 {
      var c := Min(row.qty, f.left);
      SumUpdate(f.table, i, ClosedRow(row, c, mode, now, oid), w);
      SumUpdate(f.table, i, KeptRow(row, c, mode), w);
      SumAppend(f.table[i := KeptRow(row, c, mode)], SplitRow(row, c, mode, now, oid), w);
    }
  }

  predicate AllOpen(table: seq<Row>, order: seq<nat>)
    requires Indexes(table, order)
  {
    forall k :: 0 <= k < |order| ==> table[order[k]].status.Open?
  }

  /** The profit on the trade is the profit on the rows it closed, and equals exit minus entry. */
  lemma {:induction false} TradePnlIsRowPnl(f: Cut, order: seq<nat>, price: int, now: int, oid: int)
    requires Indexes(f.table, order) && Distinct(order) && AllOpen(f.table, order)
    ensures var r := CutLoop(f, order, AtPrice(price), now, oid);
      && Sum(r.table, PnlWeight()) - Sum(f.table, PnlWeight()) == r.pnl - f.pnl
      && r.pnl - f.pnl == (r.exit - f.exit) - (r.entry - f.entry)
    decreases |order|
  {
    if order != [] && !Exhausted(f, AtPrice(price)) {
      CutOneBooksPnl(f, order[0], price, now, oid);
      var f', rest := CutOne(f, order[0], AtPrice(price), now, oid), order[1..];
      forall k | 0 <= k < |rest| ensures f'.table[rest[k]] == f.table[order[k + 1]] {
        assert order[0] != order[k + 1];
      }
      TradePnlIsRowPnl(f', rest, price, now, oid);
    }
  }

  lemma ToCents(amount: int)
    ensures -CENT <= 2 * (RoundCents(amount, 1) - amount) <= CENT
    ensures RoundCents(amount, 1) == amount <==> amount % CENT == 0
  {
    RoundsNear(amount, CENT);
    Parts(amount, CENT);
    if amount % CENT == 0 {
      RoundsExactly(amount / CENT, CENT);
    }
  }

  /** The trade row carries the profit of the rows it closed to the nearest cent. */
  lemma TradeRowPnlExactlyOnCents(table: seq<Row>, symbol: string, requested: int, confirmed: int, price: int,
                                  now: int, day: int, oid: int)
    requires SellFill(table, symbol, requested, confirmed, price, now, day, oid).Booked?
    ensures var r := SellFill(table, symbol, requested, confirmed, price, now, day, oid);
      var rows := Sum(r.table, PnlWeight()) - Sum(table, PnlWeight());
      && -CENT <= 2 * (r.trade.pnl - rows) <= CENT
      && (r.trade.pnl == rows <==> rows % CENT == 0)
  {
    hide CutLoop, Fifo, RoundCents, PnlWeight;
    FifoCoversOpen(table, symbol);
    TradePnlIsRowPnl(Start(table, confirmed), Fifo(table, symbol), price, now, oid);
    ToCents(SellCut(table, symbol, confirmed, price, now, oid).pnl);
  }

  predicate Positive(table: seq<Row>, order: seq<nat>)
    requires Indexes(table, order)
  {
    forall k :: 0 <= k < |order| ==> table[order[k]].qty > 0
  }

  /** What a sell of q takes from the k-th lot: it stops when no more than 1/10000 is left. */
  function SoldFrom(table: seq<Row>, order: seq<nat>, q: int, k: nat): int
    requires Indexes(table, order) && k < |order|
  {
    var left := q - Prefix(table, order, k);
    if left <= 1 then 0 else Min(table[order[k]].qty, left)
  }

  function SharePnl(row: Row, t: int, price: int): int
    requires row.qty > 0
  {
    RoundDiv(t * price, SHARE) - RoundDiv(row.entryAmount * t, row.qty)
  }

  /** The profit of a sell of q on the lots from the k-th on, computed from the table before it. */
  function FifoPnl(table: seq<Row>, order: seq<nat>, q: int, price: int, k: nat): int
    requires Indexes(table, order) && Positive(table, order) && k <= |order|
    decreases |order| - k
  {
    if k == |order| then 0
    else SharePnl(table[order[k]], SoldFrom(table, order, q, k), price) + FifoPnl(table, order, q, price, k + 1)
  }

  lemma {:induction false} NothingSoldFrom(table: seq<Row>, order: seq<nat>, q: int, price: int, k: nat)
    requires Indexes(table, order) && Positive(table, order) && k <= |order|
    requires forall j :: k <= j < |order| ==> q - Prefix(table, order, j) <= 1
    ensures FifoPnl(table, order, q, price, k) == 0
    decreases |order| - k
  {
    if k < |order| {
      NothingSoldFrom(table, order, q, price, k + 1);
      RoundsExactly(0, SHARE);
      RoundsExactly(0, table[order[k]].qty);
    }
  }

  lemma {:induction false} FifoPnlShift(table: seq<Row>, order: seq<nat>, q: int, table': seq<Row>, q': int,
                                        price: int, k: nat)
    requires Indexes(table, order) && Positive(table, order) && 0 < k <= |order|
    requires Indexes(table', order[1..]) && Positive(table', order[1..])
    requires SameBehindFirst(table, order, q, table', q')
    ensures FifoPnl(table, order, q, price, k) == FifoPnl(table', order[1..], q', price, k - 1)
    decreases |order| - k
  {
    if k < |order| {
      FifoPnlShift(table, order, q, table', q', price, k + 1);
      assert table[order[k]] == table'[order[1..][k - 1]];
    }
  }

  lemma FirstTurnPnl(f: Cut, order: seq<nat>, price: int, now: int, oid: int, symbol: string)
    requires Indexes(f.table, order) && Distinct(order) && OpenAt(f.table, order, symbol) && order != [] && f.left > 1
    ensures var f', rest := CutOne(f, order[0], AtPrice(price), now, oid), order[1..];
      && Indexes(f'.table, rest) && OpenAt(f'.table, rest, symbol) && Distinct(rest)
      && FifoPnl(f.table, order, f.left, price, 0) == f'.pnl - f.pnl + FifoPnl(f'.table, rest, f'.left, price, 0)
  {
    var mode := AtPrice(price);
    var f', rest := CutOne(f, order[0], mode, now, oid), order[1..];
    OpenAtRest(f, order, mode, now, oid, symbol);
    assert Prefix(f.table, order, 0) == 0;
    if f.table[order[0]].qty <= f.left {
      TurnKeepsRest(f, order, mode, now, oid);
      FifoPnlShift(f.table, order, f.left, f'.table, f'.left, price, 1);
    } else {
      NothingBehindFirst(f.table, order, f.left, symbol);
      NothingBehindFirst(f'.table, rest, f'.left, symbol);
      NothingSoldFrom(f.table, order, f.left, price, 1);
      NothingSoldFrom(f'.table, rest, f'.left, price, 0);
    }
  }

  /** The loop's profit is that of the first-in first-out shares of the table before it. */
  lemma {:induction false} CutPnlIsFifoPnl(f: Cut, order: seq<nat>, price: int, now: int, oid: int, symbol: string)
    requires Indexes(f.table, order) && Distinct(order) && OpenAt(f.table, order, symbol)
    ensures CutLoop(f, order, AtPrice(price), now, oid).pnl - f.pnl == FifoPnl(f.table, order, f.left, price, 0)
    decreases |order|
  {
    var mode := AtPrice(price);
    NothingBehindFirst(f.table, order, f.left, symbol);
    if order == [] {
    } else if Exhausted(f, mode) {
      NothingSoldFrom(f.table, order, f.left, price, 0);
    } else {
      FirstTurnPnl(f, order, price, now, oid, symbol);
      CutPnlIsFifoPnl(CutOne(f, order[0], mode, now, oid), order[1..], price, now, oid, symbol);
    }
  }

  /** A caller can tell before the fill whether the trade row will carry the rows' profit exactly:
      when the first-in first-out profit of the quantity is on cents. */
  lemma TradeRowPnlExactly(table: seq<Row>, symbol: string, requested: int, confirmed: int, price: int,
                           now: int, day: int, oid: int)
    requires SellFill(table, symbol, requested, confirmed, price, now, day, oid).Booked?
    requires OpenAt(table, Fifo(table, symbol), symbol)
    ensures var r := SellFill(table, symbol, requested, confirmed, price, now, day, oid);
      r.trade.pnl == Sum(r.table, PnlWeight()) - Sum(table, PnlWeight()) <==>
        FifoPnl(table, Fifo(table, symbol), confirmed, price, 0) % CENT == 0
  {
    hide CutLoop, Fifo, RoundCents, PnlWeight, FifoPnl, OpenAt;
    FifoCoversOpen(table, symbol);
    CutPnlIsFifoPnl(Start(table, confirmed), Fifo(table, symbol), price, now, oid, symbol);
    TradePnlIsRowPnl(Start(table, confirmed), Fifo(table, symbol), price, now, oid);
    ToCents(SellCut(table, symbol, confirmed, price, now, oid).pnl);
  }

  /** Closing c of a lot's units attributes its whole cost: nothing is left, or less than half of
      the smallest amount. */
  predicate AttributesAll(row: Row, c: int) {
    var rest := row.entryAmount * (row.qty - c);
    || -row.qty < 2 * rest < row.qty
    || ((2 * rest == row.qty || 2 * rest == -row.qty) && row.entryAmount % 2 == 0)
  }

  lemma AttributesAllExactly(row: Row, c: int, price: int)
    requires row.qty > 0
    ensures PartAmount(row, c, AtPrice(price)) == row.entryAmount <==> AttributesAll(row, c)
  {
    RoundsToExactly(row.entryAmount * c, row.qty, row.entryAmount);
    assert row.entryAmount * c - row.entryAmount * row.qty == -(row.entryAmount * (row.qty - c));
  }

  /** A row closed whole shows pnl = exit - entry exactly when c units carry its whole cost, as
      they do when c is its quantity; a row split off always does. */
  lemma RowPnlIsExitMinusEntry(row: Row, c: int, price: int, now: int, oid: int)
    requires row.qty > 0
    ensures var e := ClosedRow(row, c, AtPrice(price), now, oid).status.exit;
      e.pnl == e.amount - row.entryAmount <==> AttributesAll(row, c)
    ensures AttributesAll(row, row.qty)
    ensures var s := SplitRow(row, c, AtPrice(price), now, oid);
      s.status.exit.pnl == s.status.exit.amount - s.entryAmount
  {
    AttributesAllExactly(row, c, price);
  }
}
