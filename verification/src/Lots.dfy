/** Closing lots oldest first: the loop body shared by the KIS sell fill and by reconciliation,
    and what the loop amounts to. */
module Lots {
  import opened Rounding
  import opened Ledger

  /** A sell closes at the fill price; reconciliation closes at cost, and its domestic form
      keeps amounts to two decimals. */
  datatype Mode = AtPrice(price: int) | AtCost(cents: bool)

  /** The running variables of the loop. */
  datatype Cut = Cut(table: seq<Row>, left: int, taken: int, entry: int, exit: int, pnl: int, touched: seq<nat>)

  function Min(a: int, b: int): int {
    if a < b then a else b
  }

  function RoundCents(n: int, d: int): int
    requires d > 0
  {
    RoundDiv(n, d * CENT) * CENT
  }

  /** The entry amount attributed to c of the row's units. */
  function PartAmount(row: Row, c: int, mode: Mode): int
    requires row.qty > 0
  {
    if mode == AtCost(true) then RoundCents(row.entryAmount * c, row.qty)
    else RoundDiv(row.entryAmount * c, row.qty)
  }

  function RestAmount(row: Row, part: int, mode: Mode): int {
    if mode == AtCost(true) then RoundCents(row.entryAmount - part, 1) else row.entryAmount - part
  }

  function SellExit(price: int, c: int, part: int, now: int, oid: int): Exit {
    var amount := RoundDiv(c * price, SHARE);
    Exit(price, amount, now, amount - part, oid)
  }

  function WholeExit(row: Row, c: int, part: int, mode: Mode, now: int, oid: int): Exit {
    match mode
    case AtPrice(price) => SellExit(price, c, part, now, oid)
    case AtCost(_) => Exit(row.entryPrice, row.entryAmount, now, 0, oid)
  }

  function PartExit(row: Row, c: int, part: int, mode: Mode, now: int, oid: int): Exit {
    match mode
    case AtPrice(price) => SellExit(price, c, part, now, oid)
    case AtCost(_) => Exit(row.entryPrice, part, now, 0, oid)
  }

  /** The tolerance of 1/10000: a lot that would keep no more than that closes whole. */
  predicate ClosesWhole(row: Row, c: int) {
    c >= row.qty - 1
  }

  function ClosedRow(row: Row, c: int, mode: Mode, now: int, oid: int): Row
    requires row.qty > 0
  {
    row.(status := Closed(WholeExit(row, c, PartAmount(row, c, mode), mode, now, oid)))
  }

  function KeptRow(row: Row, c: int, mode: Mode): Row
    requires row.qty > 0
  {
    row.(qty := row.qty - c, entryAmount := RestAmount(row, PartAmount(row, c, mode), mode))
  }

  function SplitRow(row: Row, c: int, mode: Mode, now: int, oid: int): Row
    requires row.qty > 0
  {
    var part := PartAmount(row, c, mode);
    row.(qty := c, entryAmount := part, status := Closed(PartExit(row, c, part, mode, now, oid)))
  }

  function CutTable(table: seq<Row>, i: nat, c: int, mode: Mode, now: int, oid: int): seq<Row>
    requires i < |table| && table[i].qty > 0
  {
    if ClosesWhole(table[i], c) then table[i := ClosedRow(table[i], c, mode, now, oid)]
    else table[i := KeptRow(table[i], c, mode)] + [SplitRow(table[i], c, mode, now, oid)]
  }

  function CutOne(f: Cut, i: nat, mode: Mode, now: int, oid: int): (r: Cut)
    requires i < |f.table|
    ensures |r.table| >= |f.table|
  {
    var row := f.table[i];
    if row.qty <= 0 then f
    else
      var c := Min(row.qty, f.left);
      var part := PartAmount(row, c, mode);
      var amount := if mode.AtPrice? then RoundDiv(c * mode.price, SHARE) else part;
      Cut(CutTable(f.table, i, c, mode, now, oid), f.left - c, f.taken + c,
          f.entry + part, f.exit + amount, f.pnl + (amount - part), f.touched + [i])
  }

  /** The sell loop stops at 1/10000 left, reconciliation at nothing left. */
  predicate Exhausted(f: Cut, mode: Mode) {
    f.left <= if mode.AtPrice? then 1 else 0
  }

  function CutLoop(f: Cut, order: seq<nat>, mode: Mode, now: int, oid: int): (r: Cut)
    requires Indexes(f.table, order)
    ensures |r.table| >= |f.table|
    decreases |order|
  {
    if order == [] || Exhausted(f, mode) then f
    else CutLoop(CutOne(f, order[0], mode, now, oid), order[1..], mode, now, oid)
  }

  function Start(table: seq<Row>, q: int): Cut {
    Cut(table, q, 0, 0, 0, 0, [])
  }

  // ----- frame

  /** What no cut ever changes about a row. */
  predicate SameOrigin(r: Row, r': Row) {
    && r'.ticker == r.ticker && r'.entryPrice == r.entryPrice
    && r'.entryTime == r.entryTime && r'.entryOrder == r.entryOrder
  }

  predicate Distinct(order: seq<nat>) {
    forall a, b :: 0 <= a < b < |order| ==> order[a] != order[b]
  }

  lemma {:induction false} CutFrames(f: Cut, order: seq<nat>, mode: Mode, now: int, oid: int)
    requires Indexes(f.table, order)
    ensures var r := CutLoop(f, order, mode, now, oid);
      && (forall i :: 0 <= i < |f.table| ==> SameOrigin(f.table[i], r.table[i]))
      && (forall i :: 0 <= i < |f.table| && i !in order ==> r.table[i] == f.table[i])
    decreases |order|
  {
    if order != [] && !Exhausted(f, mode) {
      var f' := CutOne(f, order[0], mode, now, oid);
      CutFrames(f', order[1..], mode, now, oid);
      assert order == [order[0]] + order[1..];
      assert forall i :: 0 <= i < |f.table| ==> SameOrigin(f.table[i], f'.table[i]);
    }
  }

  // ----- whole shares

  predicate Whole(q: int) {
    q % SHARE == 0
  }

  /** Every open KIS lot of the symbol holds a positive number of whole shares. */
  predicate WholeLots(table: seq<Row>, symbol: string) {
    forall i :: 0 <= i < |table| && OpenKis(table[i], symbol) ==> table[i].qty > 0 && Whole(table[i].qty)
  }

  /** The lots of the order, in the same sense. */
  predicate WholeAt(table: seq<Row>, order: seq<nat>)
    requires Indexes(table, order)
  {
    forall k :: 0 <= k < |order| ==>
      table[order[k]].qty > 0 && Whole(table[order[k]].qty) && table[order[k]].status.Open?
  }

  /** Quantity in the first k lots of the order. */
  function Prefix(table: seq<Row>, order: seq<nat>, k: nat): int
    requires Indexes(table, order) && k <= |order|
  {
    if k == 0 then 0 else Prefix(table, order, k - 1) + table[order[k - 1]].qty
  }

  function Clamp(x: int, hi: int): int {
    if x < 0 then 0 else if x > hi then hi else x
  }

  /** What first-in first-out takes from the k-th lot when q is to be taken in all. */
  function FifoShare(table: seq<Row>, order: seq<nat>, q: int, k: nat): int
    requires Indexes(table, order) && k < |order|
  {
    Clamp(q - Prefix(table, order, k), table[order[k]].qty)
  }

  /** A lot after t of its units were taken. */
  predicate Taken(row: Row, row': Row, t: int, mode: Mode, now: int, oid: int)
    requires row.qty > 0
  {
    if t == 0 then row' == row
    else if t == row.qty then row' == ClosedRow(row, t, mode, now, oid)
    else row' == KeptRow(row, t, mode)
  }

  /** How many rows the loop adds: one for a lot that is taken in part. */
  predicate SplitsAtMostOnce(table: seq<Row>, added: seq<Row>, order: seq<nat>, q: int, mode: Mode, now: int, oid: int)
    requires Indexes(table, order) && WholeAt(table, order)
  {
    || (added == [] && forall k :: 0 <= k < |order| ==> FifoShare(table, order, q, k) in {0, table[order[k]].qty})
    || (exists k :: 0 <= k < |order| && 0 < FifoShare(table, order, q, k) < table[order[k]].qty
          && added == [SplitRow(table[order[k]], FifoShare(table, order, q, k), mode, now, oid)])
  }

  lemma {:induction false} PrefixShift(table: seq<Row>, table': seq<Row>, order: seq<nat>, k: nat)
    requires Indexes(table, order) && Indexes(table', order) && 0 < k <= |order|
    requires forall j :: 1 <= j < |order| ==> table'[order[j]] == table[order[j]]
    ensures Prefix(table, order, k) == table[order[0]].qty + Prefix(table', order[1..], k - 1)
  {
    if k > 1 {
      PrefixShift(table, table', order, k - 1);
      assert order[1..][k - 2] == order[k - 1];
    } else {
      assert Prefix(table, order, 0) == 0;
    }
  }

  lemma {:induction false} PrefixPositive(table: seq<Row>, order: seq<nat>, k: nat)
    requires Indexes(table, order) && WholeAt(table, order) && k <= |order|
    ensures Prefix(table, order, k) >= 0
    ensures Whole(Prefix(table, order, k))
  {
    if k > 0 {
      PrefixPositive(table, order, k - 1);
    }
  }

  /** Between whole-share numbers the tolerance makes no difference. */
  lemma WholeMin(qty: int, left: int)
    requires qty > 0 && left > 0 && Whole(qty) && Whole(left)
    ensures var t := Min(qty, left); t > 0 && Whole(left - t) && (t >= qty - 1 <==> t == qty)
  {
  }

  lemma ExhaustedIsEmpty(f: Cut, mode: Mode)
    requires f.left >= 0 && Whole(f.left)
    ensures Exhausted(f, mode) <==> f.left == 0
  {
  }

  /** The first turn of the loop: what it does to its lot. */
  lemma CutFirstLot(f: Cut, order: seq<nat>, mode: Mode, now: int, oid: int)
    requires Indexes(f.table, order) && WholeAt(f.table, order) && order != []
    requires f.left > 0 && Whole(f.left)
    ensures var f' := CutOne(f, order[0], mode, now, oid);
      var t := Min(f.table[order[0]].qty, f.left);
      && t == FifoShare(f.table, order, f.left, 0) > 0
      && Taken(f.table[order[0]], f'.table[order[0]], t, mode, now, oid)
      && f'.left == f.left - t && Whole(f'.left) && f'.left >= 0 && f'.taken == f.taken + t
      && f'.table == CutTable(f.table, order[0], t, mode, now, oid)
      && (ClosesWhole(f.table[order[0]], t) <==> t == f.table[order[0]].qty)
  {
    assert Prefix(f.table, order, 0) == 0;
    WholeMin(f.table[order[0]].qty, f.left);
  }

  /** What it leaves for the other lots. */
  lemma CutFirstRest(f: Cut, order: seq<nat>, mode: Mode, now: int, oid: int)
    requires Indexes(f.table, order) && WholeAt(f.table, order) && Distinct(order) && order != []
    requires f.left > 0 && Whole(f.left)
    ensures var f' := CutOne(f, order[0], mode, now, oid);
      && (forall j :: 1 <= j < |order| ==> f'.table[order[j]] == f.table[order[j]])
      && WholeAt(f'.table, order[1..]) && Distinct(order[1..])
  {
  }

  lemma ShareShift(f: Cut, order: seq<nat>, k: nat, mode: Mode, now: int, oid: int)
    requires Indexes(f.table, order) && WholeAt(f.table, order) && Distinct(order) && 0 < k < |order|
    requires f.left > 0 && Whole(f.left)
    ensures var f' := CutOne(f, order[0], mode, now, oid);
      FifoShare(f'.table, order[1..], f'.left, k - 1) == FifoShare(f.table, order, f.left, k)
  {
    CutFirstLot(f, order, mode, now, oid);
    CutFirstRest(f, order, mode, now, oid);
    var f' := CutOne(f, order[0], mode, now, oid);
    PrefixShift(f.table, f'.table, order, k);
    PrefixPositive(f'.table, order[1..], k - 1);
  }

  /** Every lot of the order, in the first table and in the second, is apart by its share. */
  predicate AllTaken(table: seq<Row>, table': seq<Row>, order: seq<nat>, q: int, mode: Mode, now: int, oid: int)
    requires Indexes(table, order) && WholeAt(table, order) && |table'| >= |table|
  {
    forall k :: 0 <= k < |order| ==>
      Taken(table[order[k]], table'[order[k]], FifoShare(table, order, q, k), mode, now, oid)
  }

  function LeftOver(q: int, total: int): int {
    if q < total then 0 else q - total
  }

  lemma NothingLeftTakesNothing(table: seq<Row>, order: seq<nat>, mode: Mode, now: int, oid: int)
    requires Indexes(table, order) && WholeAt(table, order)
    ensures AllTaken(table, table, order, 0, mode, now, oid) && Prefix(table, order, |order|) >= 0
    ensures forall k :: 0 <= k < |order| ==> FifoShare(table, order, 0, k) == 0
  {
    forall k | 0 <= k < |order| ensures FifoShare(table, order, 0, k) == 0 {
      PrefixPositive(table, order, k);
    }
    PrefixPositive(table, order, |order|);
  }

  lemma TakenFromFirst(f: Cut, table': seq<Row>, order: seq<nat>, mode: Mode, now: int, oid: int)
    requires Indexes(f.table, order) && WholeAt(f.table, order) && Distinct(order) && order != []
    requires f.left > 0 && Whole(f.left)
    requires var f' := CutOne(f, order[0], mode, now, oid);
      && |table'| >= |f'.table| && table'[order[0]] == f'.table[order[0]]
      && Indexes(f'.table, order[1..]) && WholeAt(f'.table, order[1..])
      && AllTaken(f'.table, table', order[1..], f'.left, mode, now, oid)
    ensures AllTaken(f.table, table', order, f.left, mode, now, oid)
  {
    CutFirstLot(f, order, mode, now, oid);
    CutFirstRest(f, order, mode, now, oid);
    var rest := order[1..];
    forall k | 0 <= k < |order|
      ensures Taken(f.table[order[k]], table'[order[k]], FifoShare(f.table, order, f.left, k), mode, now, oid)
    {
      if k > 0 {
        ShareShift(f, order, k, mode, now, oid);
        assert order[k] == rest[k - 1];
      }
    }
  }

  /** On whole-share lots the loop takes from each lot exactly its first-in first-out share. */
  lemma {:induction false} CutIsFifo(f: Cut, order: seq<nat>, mode: Mode, now: int, oid: int, r: Cut)
    requires Indexes(f.table, order) && WholeAt(f.table, order) && Distinct(order)
    requires f.left >= 0 && Whole(f.left)
    requires r == CutLoop(f, order, mode, now, oid)
    ensures AllTaken(f.table, r.table, order, f.left, mode, now, oid)
    decreases |order|
  {
    ExhaustedIsEmpty(f, mode);
    if order == [] {
    } else if f.left == 0 {
      NothingLeftTakesNothing(f.table, order, mode, now, oid);
    } else {
      TakeRest(f, order, mode, now, oid, r);
    }
  }

  lemma {:induction false} TakeRest(f: Cut, order: seq<nat>, mode: Mode, now: int, oid: int, r: Cut)
    requires Indexes(f.table, order) && WholeAt(f.table, order) && Distinct(order) && order != []
    requires f.left > 0 && Whole(f.left)
    requires r == CutLoop(CutOne(f, order[0], mode, now, oid), order[1..], mode, now, oid)
    ensures AllTaken(f.table, r.table, order, f.left, mode, now, oid)
    decreases |order|, 0
  {
    CutFirstLot(f, order, mode, now, oid);
    CutFirstRest(f, order, mode, now, oid);
    var f', rest := CutOne(f, order[0], mode, now, oid), order[1..];
    CutIsFifo(f', rest, mode, now, oid, r);
    CutFrames(f', rest, mode, now, oid);
    assert order[0] !in rest;
    TakenFromFirst(f, r.table, order, mode, now, oid);
  }

  lemma LeftOverStep(q: int, first: int, rest: int)
    requires q >= 0 && first > 0 && rest >= 0
    ensures LeftOver(q - Min(first, q), rest) == LeftOver(q, first + rest)
  {
  }

  /** What is left over is what the lots could not cover. */
  lemma {:induction false} CutLeavesOver(f: Cut, order: seq<nat>, mode: Mode, now: int, oid: int, r: Cut)
    requires Indexes(f.table, order) && WholeAt(f.table, order) && Distinct(order)
    requires f.left >= 0 && Whole(f.left)
    requires r == CutLoop(f, order, mode, now, oid)
    ensures r.left == LeftOver(f.left, Prefix(f.table, order, |order|)) && r.taken - f.taken == f.left - r.left
    decreases |order|
  {
    ExhaustedIsEmpty(f, mode);
    if order == [] {
    } else if f.left == 0 {
      NothingLeftTakesNothing(f.table, order, mode, now, oid);
    } else {
      LeaveRest(f, order, mode, now, oid, r);
    }
  }

  lemma {:induction false} LeaveRest(f: Cut, order: seq<nat>, mode: Mode, now: int, oid: int, r: Cut)
    requires Indexes(f.table, order) && WholeAt(f.table, order) && Distinct(order) && order != []
    requires f.left > 0 && Whole(f.left)
    requires r == CutLoop(CutOne(f, order[0], mode, now, oid), order[1..], mode, now, oid)
    ensures r.left == LeftOver(f.left, Prefix(f.table, order, |order|)) && r.taken - f.taken == f.left - r.left
    decreases |order|, 0
  {
    CutFirstLot(f, order, mode, now, oid);
    CutFirstRest(f, order, mode, now, oid);
    var f', rest := CutOne(f, order[0], mode, now, oid), order[1..];
    CutLeavesOver(f', rest, mode, now, oid, r);
    PrefixShift(f.table, f'.table, order, |order|);
    PrefixPositive(f'.table, rest, |rest|);
    LeftOverStep(f.left, f.table[order[0]].qty, Prefix(f'.table, rest, |rest|));
  }

  lemma SplitsShift(f: Cut, added: seq<Row>, order: seq<nat>, mode: Mode, now: int, oid: int)
    requires Indexes(f.table, order) && WholeAt(f.table, order) && Distinct(order) && order != []
    requires f.left > 0 && Whole(f.left) && FifoShare(f.table, order, f.left, 0) == f.table[order[0]].qty
    requires var f' := CutOne(f, order[0], mode, now, oid);
      && Indexes(f'.table, order[1..]) && WholeAt(f'.table, order[1..])
      && SplitsAtMostOnce(f'.table, added, order[1..], f'.left, mode, now, oid)
    ensures SplitsAtMostOnce(f.table, added, order, f.left, mode, now, oid)
  {
    CutFirstLot(f, order, mode, now, oid);
    CutFirstRest(f, order, mode, now, oid);
    var f', rest := CutOne(f, order[0], mode, now, oid), order[1..];
    forall k | 0 < k < |order|
      ensures FifoShare(f'.table, rest, f'.left, k - 1) == FifoShare(f.table, order, f.left, k)
      ensures f'.table[rest[k - 1]] == f.table[order[k]]
    {
      ShareShift(f, order, k, mode, now, oid);
    }
    if added == []
       && forall k :: 0 <= k < |rest| ==> FifoShare(f'.table, rest, f'.left, k) in {0, f'.table[rest[k]].qty}
    {
      forall k | 0 <= k < |order| ensures FifoShare(f.table, order, f.left, k) in {0, f.table[order[k]].qty} {
        if k > 0 {
          assert FifoShare(f'.table, rest, f'.left, k - 1) in {0, f'.table[rest[k - 1]].qty};
        }
      }
    } else {
      var j :| 0 <= j < |rest| && 0 < FifoShare(f'.table, rest, f'.left, j) < f'.table[rest[j]].qty
        && added == [SplitRow(f'.table[rest[j]], FifoShare(f'.table, rest, f'.left, j), mode, now, oid)];
      assert 0 < FifoShare(f.table, order, f.left, j + 1) < f.table[order[j + 1]].qty;
    }
  }

  lemma SplitEnds(f: Cut, order: seq<nat>, mode: Mode, now: int, oid: int)
    requires Indexes(f.table, order) && WholeAt(f.table, order) && Distinct(order) && order != []
    requires f.left > 0 && Whole(f.left) && FifoShare(f.table, order, f.left, 0) < f.table[order[0]].qty
    ensures var f' := CutOne(f, order[0], mode, now, oid);
      && CutLoop(f', order[1..], mode, now, oid) == f'
      && SplitsAtMostOnce(f.table, f'.table[|f.table|..], order, f.left, mode, now, oid)
  {
    CutFirstLot(f, order, mode, now, oid);
    CutFirstRest(f, order, mode, now, oid);
    var f', t := CutOne(f, order[0], mode, now, oid), FifoShare(f.table, order, f.left, 0);
    assert f'.table[|f.table|..] == [SplitRow(f.table[order[0]], t, mode, now, oid)];
  }

  /** Only the last lot touched can be split, and the split adds one closed row. */
  lemma {:induction false} CutSplitsAtMostOnce(f: Cut, order: seq<nat>, mode: Mode, now: int, oid: int, r: Cut)
    requires Indexes(f.table, order) && WholeAt(f.table, order) && Distinct(order)
    requires f.left >= 0 && Whole(f.left)
    requires r == CutLoop(f, order, mode, now, oid)
    ensures SplitsAtMostOnce(f.table, r.table[|f.table|..], order, f.left, mode, now, oid)
    decreases |order|
  {
    ExhaustedIsEmpty(f, mode);
    if order == [] {
    } else if f.left == 0 {
      NothingLeftTakesNothing(f.table, order, mode, now, oid);
    } else {
      SplitRest(f, order, mode, now, oid, r);
    }
  }

  lemma {:induction false} SplitRest(f: Cut, order: seq<nat>, mode: Mode, now: int, oid: int, r: Cut)
    requires Indexes(f.table, order) && WholeAt(f.table, order) && Distinct(order) && order != []
    requires f.left > 0 && Whole(f.left)
    requires r == CutLoop(CutOne(f, order[0], mode, now, oid), order[1..], mode, now, oid)
    ensures SplitsAtMostOnce(f.table, r.table[|f.table|..], order, f.left, mode, now, oid)
    decreases |order|, 0
  {
    CutFirstLot(f, order, mode, now, oid);
    CutFirstRest(f, order, mode, now, oid);
    if FifoShare(f.table, order, f.left, 0) < f.table[order[0]].qty {
      SplitEnds(f, order, mode, now, oid);
    } else {
      var f' := CutOne(f, order[0], mode, now, oid);
      CutSplitsAtMostOnce(f', order[1..], mode, now, oid, r);
      assert |f'.table| == |f.table|;
      SplitsShift(f, r.table[|f.table|..], order, mode, now, oid);
    }
  }
}
