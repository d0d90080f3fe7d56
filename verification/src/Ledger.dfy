/** The position table as values: first-in first-out selection of open KIS lots, and the cutting
    of lots that sells and reconciliation share. Quantities count 1/10000 shares, money counts
    1/10^8 of the currency, prices are money per whole share. A row's id is its index. */
module Ledger {
  import opened Orders

  const SHARE := 10_000
  const CENT := 1_000_000

  datatype Exit = Exit(price: int, amount: int, time: int, pnl: int, order: int)

  datatype Status = Open | Closed(exit: Exit)

  datatype Row = Row(
    ticker: string,
    qty: int,
    entryPrice: int,
    entryAmount: int,
    entryTime: int,
    entryOrder: Option<int>,
    status: Status)

  /** KIS orders are stored under negative synthetic ids; IB and legacy rows have none or a
      nonnegative one. */
  predicate Kis(r: Row, symbol: string) {
    r.ticker == symbol && r.entryOrder.Some? && r.entryOrder.value < 0
  }

  predicate OpenKis(r: Row, symbol: string) {
    Kis(r, symbol) && r.status.Open?
  }

  // ----- sums over the table

  function Sum(table: seq<Row>, w: Row -> int): int {
    if table == [] then 0 else Sum(table[..|table| - 1], w) + w(table[|table| - 1])
  }

  function QtyWeight(symbol: string): Row -> int {
    r => if Kis(r, symbol) then r.qty else 0
  }

  function CostWeight(symbol: string): Row -> int {
    r => if Kis(r, symbol) then r.entryAmount else 0
  }

  function OpenWeight(symbol: string): Row -> int {
    r => if OpenKis(r, symbol) then r.qty else 0
  }

  function OpenQty(table: seq<Row>, symbol: string): int {
    Sum(table, OpenWeight(symbol))
  }

  lemma {:induction false} SumUpdate(table: seq<Row>, i: nat, r: Row, w: Row -> int)
    requires i < |table|
    ensures Sum(table[i := r], w) == Sum(table, w) - w(table[i]) + w(r)
  {
    var n := |table| - 1;
    if i < n {
      SumUpdate(table[..n], i, r, w);
      assert table[i := r][..n] == table[..n][i := r];
    } else {
      assert table[i := r][..n] == table[..n];
    }
  }

  lemma SumAppend(table: seq<Row>, r: Row, w: Row -> int)
    ensures Sum(table + [r], w) == Sum(table, w) + w(r)
  {
  }

  // ----- order by entry_time, id

  predicate Before(table: seq<Row>, i: nat, j: nat)
    requires i < |table| && j < |table|
  {
    table[i].entryTime < table[j].entryTime || (table[i].entryTime == table[j].entryTime && i < j)
  }

  predicate Indexes(table: seq<Row>, order: seq<nat>) {
    forall k :: 0 <= k < |order| ==> order[k] < |table|
  }

  predicate Ordered(table: seq<Row>, order: seq<nat>)
    requires Indexes(table, order)
  {
    forall a, b :: 0 <= a < b < |order| ==> Before(table, order[a], order[b])
  }

  /** Put row i behind every row that is not entered later. */
  function Insert(table: seq<Row>, order: seq<nat>, i: nat): (r: seq<nat>)
    requires i < |table| && Indexes(table, order)
    ensures Indexes(table, r)
  {
    if order == [] then [i]
    else if table[order[0]].entryTime <= table[i].entryTime then [order[0]] + Insert(table, order[1..], i)
    else [i] + order
  }

  /** The open KIS rows among the first n, oldest first. */
  function FifoOf(table: seq<Row>, symbol: string, n: nat): (r: seq<nat>)
    requires n <= |table|
    ensures Indexes(table, r)
  {
    if n == 0 then []
    else if OpenKis(table[n - 1], symbol) then Insert(table, FifoOf(table, symbol, n - 1), n - 1)
    else FifoOf(table, symbol, n - 1)
  }

  function Fifo(table: seq<Row>, symbol: string): (r: seq<nat>)
    ensures Indexes(table, r)
  {
    FifoOf(table, symbol, |table|)
  }

  lemma {:induction false} InsertKeepsOrder(table: seq<Row>, order: seq<nat>, i: nat)
    requires i < |table| && Indexes(table, order) && Ordered(table, order)
    requires forall k :: 0 <= k < |order| ==> order[k] < i
    ensures var r := Insert(table, order, i);
      && Ordered(table, r)
      && (forall x :: x in r <==> x == i || x in order)
      && |r| == |order| + 1
      && (order != [] ==> r[0] == order[0] || r[0] == i)
  {
    if order != [] && table[order[0]].entryTime <= table[i].entryTime {
      var rest := order[1..];
      assert forall k :: 0 <= k < |rest| ==> rest[k] == order[k + 1];
      InsertKeepsOrder(table, rest, i);
      var r := Insert(table, rest, i);
      assert forall x :: x in r ==> Before(table, order[0], x) by {
        forall x | x in r ensures Before(table, order[0], x) {
          if x != i {
            var k :| 0 <= k < |rest| && rest[k] == x;
            assert Before(table, order[0], order[k + 1]);
          }
        }
      }
      assert order == [order[0]] + rest;
    }
  }

  predicate SelectsOpen(table: seq<Row>, symbol: string, n: nat, order: seq<nat>)
    requires n <= |table|
  {
    && Indexes(table, order)
    && Ordered(table, order)
    && (forall k :: 0 <= k < |order| ==> order[k] < n && OpenKis(table[order[k]], symbol))
    && (forall i :: 0 <= i < n && OpenKis(table[i], symbol) ==> i in order)
  }

  lemma InsertSelects(table: seq<Row>, symbol: string, n: nat, order: seq<nat>)
    requires n < |table| && SelectsOpen(table, symbol, n, order) && OpenKis(table[n], symbol)
    ensures SelectsOpen(table, symbol, n + 1, Insert(table, order, n))
  {
    InsertKeepsOrder(table, order, n);
    var r := Insert(table, order, n);
    forall k | 0 <= k < |r| ensures r[k] < n + 1 && OpenKis(table[r[k]], symbol) {
      assert r[k] in r;
    }
  }

  /** The selection is in (entry_time, id) order and holds exactly the open KIS rows. */
  lemma {:induction false} FifoSelects(table: seq<Row>, symbol: string, n: nat)
    requires n <= |table|
    ensures SelectsOpen(table, symbol, n, FifoOf(table, symbol, n))
  {
    if n > 0 {
      FifoSelects(table, symbol, n - 1);
      if OpenKis(table[n - 1], symbol) {
        InsertSelects(table, symbol, n - 1, FifoOf(table, symbol, n - 1));
      }
    }
  }

  /** Row by row: the symbol's open lots that a KIS order opened, by its negative id. */
  lemma FifoHoldsExactly(table: seq<Row>, symbol: string, i: nat)
    requires i < |table|
    ensures i in Fifo(table, symbol) <==>
      && table[i].ticker == symbol && table[i].status.Open?
      && table[i].entryOrder.Some? && table[i].entryOrder.value < 0
  {
    FifoSelects(table, symbol, |table|);
  }
}
