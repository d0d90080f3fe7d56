/** The position and trade tables as mutable objects, and the session code that updates them. */
module PositionStore {
  import opened Orders
  import opened Rounding
  import opened Ledger
  import opened Lots
  import opened Positions
  import opened Reconciliation

  class Position {
    const ticker: string
    const entryPrice: int
    const entryTime: int
    const entryOrder: Option<int>
    var qty: int
    var entryAmount: int
    var status: Status

    constructor (row: Row)
      ensures AsRow() == row
    {
      ticker, entryPrice, entryTime, entryOrder := row.ticker, row.entryPrice, row.entryTime, row.entryOrder;
      qty, entryAmount, status := row.qty, row.entryAmount, row.status;
    }

    function AsRow(): Row
      reads this
    {
      Row(ticker, qty, entryPrice, entryAmount, entryTime, entryOrder, status)
    }
  }

  lemma {:induction false} LeftNeverGrows(f: Cut, order: seq<nat>, mode: Mode, now: int, oid: int)
    requires Indexes(f.table, order)
    ensures var r := CutLoop(f, order, mode, now, oid); r.left <= f.left && (r.left == f.left ==> r.table == f.table)
    decreases |order|
  {
    if order != [] && !Exhausted(f, mode) {
      LeftNeverGrows(CutOne(f, order[0], mode, now, oid), order[1..], mode, now, oid);
    }
  }

  /** A confirmed fill that no lot absorbs leaves the table as it was. */
  lemma UntouchedWhenNothingExecuted(f: Cut, order: seq<nat>, mode: Mode, now: int, oid: int)
    requires Indexes(f.table, order) && f.left > 0
    requires var r := CutLoop(f, order, mode, now, oid); f.left - (if r.left < 0 then 0 else r.left) <= 0
    ensures CutLoop(f, order, mode, now, oid).table == f.table
  {
    LeftNeverGrows(f, order, mode, now, oid);
  }

  lemma ClosingFrames(table: seq<Row>, symbol: string, held: int, domestic: bool, st: Stamps)
    ensures var t := ClosingCut(table, symbol, held, domestic, st).table;
      |t| >= |table| && forall i :: 0 <= i < |table| ==> SameOrigin(table[i], t[i])
  {
    var db := OpenQty(table, symbol);
    if db > held + 1 {
      CutFrames(Start(table, db - held), Fifo(table, symbol), AtCost(domestic), st.now, st.closeOrder);
    }
  }

  class Store {
    var rows: seq<Position>  // a row's id is its index
    var trades: seq<Trade>

    ghost predicate Valid()
      reads this
    {
      forall i, j :: 0 <= i < j < |rows| ==> rows[i] != rows[j]
    }

    function Table(): (t: seq<Row>)
      reads this, rows
      ensures |t| == |rows| && forall i :: 0 <= i < |t| ==> t[i] == rows[i].AsRow()
    {
      seq(|rows|, i requires 0 <= i < |rows| reads this, rows => rows[i].AsRow())
    }

    constructor ()
      ensures Valid() && rows == [] && trades == []
    {
      rows, trades := [], [];
    }

    /** session.add */
    method Add(row: Row) returns (pos: Position)
      requires Valid()
      modifies this`rows
      ensures Valid() && fresh(pos) && rows == old(rows) + [pos]
      ensures Table() == old(Table()) + [row]
    {
      pos := new Position(row);
      rows := rows + [pos];
    }

    /** The loop body: close the position, or split off what is closed. */
    method CutPosition(i: nat, c: int, mode: Mode, now: int, oid: int)
      requires Valid() && i < |rows| && rows[i].qty > 0
      modifies this`rows, rows[i]
      ensures Valid() && old(rows) <= rows && (forall j :: |old(rows)| <= j < |rows| ==> fresh(rows[j]))
      ensures Table() == CutTable(old(Table()), i, c, mode, now, oid)
    {
      ghost var was := Table();
      var pos := rows[i];
      var row := pos.AsRow();
      var part := PartAmount(row, c, mode);
      if c >= pos.qty - 1 {
        pos.status := Closed(WholeExit(row, c, part, mode, now, oid));
        assert Table() == was[i := ClosedRow(row, c, mode, now, oid)];
      } else {
        pos.qty := pos.qty - c;
        pos.entryAmount := RestAmount(row, part, mode);
        assert Table() == was[i := KeptRow(row, c, mode)];
        var exit := PartExit(row, c, part, mode, now, oid);
        var closed := Add(row.(qty := c, entryAmount := part, status := Closed(exit)));
      }
    }

    /** One turn of the loop over the selected open positions, with its running totals. */
    method CutTurn(i: nat, left: int, taken: int, entry: int, exit: int, pnl: int, touched: seq<nat>,
                   mode: Mode, now: int, oid: int)
      returns (left': int, taken': int, entry': int, exit': int, pnl': int, touched': seq<nat>)
      requires Valid() && i < |rows|
      modifies this`rows, rows[i]
      ensures Valid() && old(rows) <= rows && (forall j :: |old(rows)| <= j < |rows| ==> fresh(rows[j]))
      ensures Cut(Table(), left', taken', entry', exit', pnl', touched')
           == CutOne(Cut(old(Table()), left, taken, entry, exit, pnl, touched), i, mode, now, oid)
    {
      left', taken', entry', exit', pnl', touched' := left, taken, entry, exit, pnl, touched;
      var row := rows[i].AsRow();
      if row.qty > 0 {
        var c := Min(row.qty, left);
        var part := PartAmount(row, c, mode);
        var amount := if mode.AtPrice? then RoundDiv(c * mode.price, SHARE) else part;
        CutPosition(i, c, mode, now, oid);
        left', taken' := left - c, taken + c;
        entry', exit', pnl' := entry + part, exit + amount, pnl + (amount - part);
        touched' := touched + [i];
      }
    }

    method CutPositions(order: seq<nat>, q: int, mode: Mode, now: int, oid: int) returns (cut: Cut)
      requires Valid() && Indexes(Table(), order)
      modifies this`rows, rows
      ensures Valid() && old(rows) <= rows && (forall j :: |old(rows)| <= j < |rows| ==> fresh(rows[j]))
      ensures cut == CutLoop(Start(old(Table()), q), order, mode, now, oid) && Table() == cut.table
    {
      var left, taken, entry, exit, pnl := q, 0, 0, 0, 0;
      var touched: seq<nat> := [];
      var k := 0;
      assert order[0..] == order;
      while k < |order| && left > (if mode.AtPrice? then 1 else 0)
        invariant 0 <= k <= |order|
        invariant Valid() && old(rows) <= rows && (forall j :: |old(rows)| <= j < |rows| ==> fresh(rows[j]))
        invariant Indexes(Table(), order)
        invariant CutLoop(Cut(Table(), left, taken, entry, exit, pnl, touched), order[k..], mode, now, oid)
               == CutLoop(Start(old(Table()), q), order, mode, now, oid)
      {
        assert order[k..][0] == order[k] && order[k..][1..] == order[k + 1..];
        left, taken, entry, exit, pnl, touched :=
          CutTurn(order[k], left, taken, entry, exit, pnl, touched, mode, now, oid);
        k := k + 1;
      }
      cut := Cut(Table(), left, taken, entry, exit, pnl, touched);
    }

    /** _apply_kis_sell_fill; a rolled-back session is the caller's keeping the old tables. */
    method ApplyKisSellFill(symbol: string, requested: int, confirmed: int, price: int, now: int, day: int, oid: int)
      returns (r: SellResult)
      requires Valid()
      modifies this, rows
      ensures Valid() && old(rows) <= rows && (forall j :: |old(rows)| <= j < |rows| ==> fresh(rows[j]))
      ensures r == SellFill(old(Table()), symbol, requested, confirmed, price, now, day, oid)
      ensures Table() == if r.Booked? then r.table else old(Table())
      ensures trades == if r.Booked? then old(trades) + [r.trade] else old(trades)
    {
      if confirmed <= 0 {
        return Rejected;
      }
      ghost var was := Table();
      var cut := CutPositions(Fifo(Table(), symbol), confirmed, AtPrice(price), now, oid);
      var executed := confirmed - (if cut.left < 0 then 0 else cut.left);
      if executed <= 0 {
        UntouchedWhenNothingExecuted(Start(was, confirmed), Fifo(was, symbol), AtPrice(price), now, oid);
        return Unmatched;
      }
      var trade := SellTrade(cut, symbol, requested, executed, day);
      trades := trades + [trade];
      return Booked(cut.table, trade, cut.touched);
    }

    /** session.rollback: added rows go, changed rows get their stored values back. */
    method Rollback(saved: seq<Row>)
      requires Valid() && |saved| <= |rows|
      requires forall i :: 0 <= i < |saved| ==> SameOrigin(saved[i], rows[i].AsRow())
      modifies this`rows, rows
      ensures Valid() && rows == old(rows)[..|saved|] && Table() == saved
    {
      rows := rows[..|saved|];
      for k := 0 to |saved|
        invariant Valid() && rows == old(rows)[..|saved|]
        invariant forall i :: 0 <= i < k ==> rows[i].AsRow() == saved[i]
        invariant forall i :: k <= i < |saved| ==> SameOrigin(saved[i], rows[i].AsRow())
      {
        rows[k].qty, rows[k].entryAmount, rows[k].status := saved[k].qty, saved[k].entryAmount, saved[k].status;
      }
    }

    /** The closing half of a reconciliation. */
    method CloseSurplus(symbol: string, held: int, domestic: bool, st: Stamps) returns (closed: int)
      requires Valid()
      modifies this`rows, rows
      ensures Valid() && old(rows) <= rows && (forall j :: |old(rows)| <= j < |rows| ==> fresh(rows[j]))
      ensures Table() == ClosingCut(old(Table()), symbol, held, domestic, st).table
      ensures closed == ClosingCut(old(Table()), symbol, held, domestic, st).taken
    {
      var db := OpenQty(Table(), symbol);
      closed := 0;
      if db > held + 1 {
        var cut := CutPositions(Fifo(Table(), symbol), db - held, AtCost(domestic), st.now, st.closeOrder);
        closed := cut.taken;
      }
    }

    /** The adding half: an open lot and a FILLED BUY for the missing quantity. */
    method BookMissing(symbol: string, diff: int, price: int, st: Stamps)
      requires Valid()
      modifies this
      ensures Valid() && old(rows) <= rows && (forall j :: |old(rows)| <= j < |rows| ==> fresh(rows[j]))
      ensures Table() == old(Table()) + [SyntheticLot(symbol, diff, price, st)]
      ensures trades == old(trades) + [SyntheticTrade(symbol, diff, price, st)]
    {
      var _ := Add(SyntheticLot(symbol, diff, price, st));
      trades := trades + [SyntheticTrade(symbol, diff, price, st)];
    }

    /** The session of _reconcile_kis_symbol_to_db and its domestic twin, after the balance call. */
    method Reconcile(symbol: string, held: int, prices: Prices, domestic: bool, st: Stamps) returns (r: Outcome)
      requires Valid()
      modifies this, rows
      ensures Valid() && (old(rows) <= rows && (forall j :: |old(rows)| <= j < |rows| ==> fresh(rows[j])))
      ensures r == Reconciliation.Reconcile(old(Table()), symbol, held, prices, domestic, st)
      ensures Table() == match r case Synced(t, _, _, _, _) => t case NoPrice(t) => t case RolledBack => old(Table())
      ensures trades == old(trades) + if r.Synced? then r.trades else []
    {
      hide OpenQty, CutLoop, RoundCents;
      var saved := Table();
      var closed := CloseSurplus(symbol, held, domestic, st);
      var diff := held - OpenQty(Table(), symbol);
      if diff <= 0 {
        return Synced(Table(), 0, closed, [], 0);
      }
      var price := prices.avg;
      if price <= 0 {
        if prices.quote.None? {
          ClosingFrames(saved, symbol, held, domestic, st);
          Rollback(saved);
          return RolledBack;
        }
        price := prices.quote.value;
      }
      if price <= 0 {
        return NoPrice(Table());
      }
      BookMissing(symbol, diff, price, st);
      return Synced(Table(), diff, closed, [SyntheticTrade(symbol, diff, price, st)],
                    SyntheticLot(symbol, diff, price, st).entryAmount);
    }

    /** _count_today_filled_buys */
    method CountTodayFilledBuys(symbol: string, day: int) returns (n: nat)
      ensures n == FilledBuys(trades, symbol, day) == |BuysOn(trades, symbol, day)|
    {
      n := 0;
      for k := 0 to |trades|
        invariant n == FilledBuys(trades[..k], symbol, day)
      {
        assert trades[..k + 1][..k] == trades[..k];
        if IsFilledBuy(trades[k], symbol, day) {
          n := n + 1;
        }
      }
      assert trades[..|trades|] == trades;
      FilledBuysCount(trades, symbol, day);
    }
  }
}
