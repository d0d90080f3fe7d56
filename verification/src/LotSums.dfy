/** What cutting lots does to the totals of the table. */
module LotSums {
  import opened Rounding
  import opened Ledger
  import opened Lots

  // ----- quantity

  lemma CutOneQty(f: Cut, i: nat, mode: Mode, now: int, oid: int, symbol: string)
    requires i < |f.table|
    ensures Sum(CutOne(f, i, mode, now, oid).table, QtyWeight(symbol)) == Sum(f.table, QtyWeight(symbol))
  {
    var row, w := f.table[i], QtyWeight(symbol);
    if row.qty > 0 {
      var c := Min(row.qty, f.left);
      SumUpdate(f.table, i, ClosedRow(row, c, mode, now, oid), w);
      SumUpdate(f.table, i, KeptRow(row, c, mode), w);
      SumAppend(f.table[i := KeptRow(row, c, mode)], SplitRow(row, c, mode, now, oid), w);
    }
  }

  /** Open plus closed quantity never changes, whatever is cut and however. */
  lemma {:induction false} CutConservesQty(f: Cut, order: seq<nat>, mode: Mode, now: int, oid: int, symbol: string)
    requires Indexes(f.table, order)
    ensures Sum(CutLoop(f, order, mode, now, oid).table, QtyWeight(symbol)) == Sum(f.table, QtyWeight(symbol))
    decreases |order|
  {
    if order != [] && !Exhausted(f, mode) {
      CutOneQty(f, order[0], mode, now, oid, symbol);
      CutConservesQty(CutOne(f, order[0], mode, now, oid), order[1..], mode, now, oid, symbol);
    }
  }

  // ----- cost

  /** The cost that a split gains or loses by rounding; only domestic reconciliation does. */
  function Drift(row: Row, c: int, mode: Mode): int
    requires row.qty > 0
  {
    var part := PartAmount(row, c, mode);
    RestAmount(row, part, mode) + part - row.entryAmount
  }

  lemma DriftBound(row: Row, c: int, mode: Mode)
    requires row.qty > 0
    ensures mode != AtCost(true) ==> Drift(row, c, mode) == 0
    ensures -CENT <= 2 * Drift(row, c, mode) <= CENT
  {
  }

  /** A split keeps the cost exactly when it is not a domestic one, or the lot's cost already
      has two decimals. */
  lemma DriftFreeExactlyOnCents(row: Row, c: int, mode: Mode)
    requires row.qty > 0
    ensures Drift(row, c, mode) == 0 <==> mode != AtCost(true) || row.entryAmount % CENT == 0
  {
    if mode == AtCost(true) {
      var k := RoundDiv(row.entryAmount * c, row.qty * CENT);
      var rest := row.entryAmount - k * CENT;
      Parts(rest, CENT);
      if row.entryAmount % CENT == 0 {
        Parts(row.entryAmount, CENT);
        QuotientIs(rest, CENT, row.entryAmount / CENT - k, 0);
      } else if RoundDiv(rest, CENT) * CENT == rest {
        QuotientIs(row.entryAmount, CENT, RoundDiv(rest, CENT) + k, 0);
        assert false;
      }
    }
  }

  // ----- amounts stay nonnegative

  predicate NoNegativeCost(table: seq<Row>) {
    forall i :: 0 <= i < |table| ==> table[i].entryAmount >= 0
  }

  lemma ScaleCompare(a: int, b: int, k: int)
    requires k > 0
    ensures a < b <==> a * k < b * k
    ensures a == b <==> a * k == b * k
  {
    if a < b {
      assert (b - a) * k > 0;
    } else if a > b {
      assert (a - b) * k > 0;
    }
  }

  lemma Distribute(q: int, d: int, rem: int, k: int)
    ensures (q * d + rem) * k == q * (d * k) + rem * k
  {
  }

  lemma ScaleParts(n: int, d: int, k: int)
    requires d > 0 && k > 0 && d * k > 0
    ensures n * k / (d * k) == n / d && n * k % (d * k) == n % d * k
  {
    Parts(n, d);
    Distribute(n / d, d, n % d, k);
    ScaleCompare(n % d, d, k);
    ScaleCompare(-1, n % d, k);
    QuotientIs(n * k, d * k, n / d, n % d * k);
  }

  lemma ScaleRound(n: int, d: int, k: int)
    requires d > 0 && k > 0 && d * k > 0
    ensures RoundDiv(n * k, d * k) == RoundDiv(n, d)
  {
    ScaleParts(n, d, k);
    ScaleCompare(2 * (n % d), d, k);
  }

  lemma CentsShareInRange(amount: int, c: int, qty: int)
    requires amount >= 0 && qty > 0 && 0 <= c <= qty
    ensures 0 <= RoundCents(amount * c, qty) && RoundDiv(amount - RoundCents(amount * c, qty), CENT) >= 0
  {
    assert qty * CENT > 0;
    var k := RoundDiv(amount * c, qty * CENT);
    assert 0 <= amount * c <= amount * qty;
    RoundsMonotonically(0, amount * c, qty * CENT);
    RoundsMonotonically(amount * c, amount * qty, qty * CENT);
    RoundsExactly(0, qty * CENT);
    ScaleRound(amount, CENT, qty);
    RoundsNear(amount, CENT);
    assert 2 * (amount - k * CENT) >= -CENT;
    RoundsMonotonically(-500_000, amount - k * CENT, CENT);
  }

  lemma PartInRange(row: Row, c: int, mode: Mode)
    requires row.qty > 0 && row.entryAmount >= 0 && 0 <= c <= row.qty
    ensures PartAmount(row, c, mode) >= 0
    ensures RestAmount(row, PartAmount(row, c, mode), mode) >= 0
  {
    if mode == AtCost(true) {
      CentsShareInRange(row.entryAmount, c, row.qty);
    } else {
      ShareInRange(row.entryAmount, c, row.qty);
    }
  }

  /** The remaining cost of a cut lot never goes below zero. */
  lemma {:induction false} CutKeepsCostNonNegative(f: Cut, order: seq<nat>, mode: Mode, now: int, oid: int)
    requires Indexes(f.table, order) && NoNegativeCost(f.table) && f.left >= 0
    ensures var r := CutLoop(f, order, mode, now, oid); NoNegativeCost(r.table) && r.left >= 0
    decreases |order|
  {
    if order != [] && !Exhausted(f, mode) {
      var row := f.table[order[0]];
      if row.qty > 0 {
        PartInRange(row, Min(row.qty, f.left), mode);
      }
      CutKeepsCostNonNegative(CutOne(f, order[0], mode, now, oid), order[1..], mode, now, oid);
    }
  }

  // ----- open quantity

  predicate OpenAt(table: seq<Row>, order: seq<nat>, symbol: string)
    requires Indexes(table, order)
  {
    forall k :: 0 <= k < |order| ==> OpenKis(table[order[k]], symbol) && table[order[k]].qty > 0
  }

  /** Units a turn closes beyond those it was asked for: one, when a lot of one more unit closes whole. */
  function Slack(row: Row, left: int): int {
    if row.qty == left + 1 then 1 else 0
  }

  lemma CutOneOpen(f: Cut, i: nat, mode: Mode, now: int, oid: int, symbol: string)
    requires i < |f.table| && OpenKis(f.table[i], symbol) && f.table[i].qty > 0 && f.left > 0
    ensures var f' := CutOne(f, i, mode, now, oid);
      && OpenQty(f'.table, symbol) == OpenQty(f.table, symbol) - (f.left - f'.left) - Slack(f.table[i], f.left)
      && (Slack(f.table[i], f.left) == 1 ==> f'.left == 0)
      && 0 <= f'.left
  {
    var row, w := f.table[i], OpenWeight(symbol);
    var c := Min(row.qty, f.left);
    SumUpdate(f.table, i, ClosedRow(row, c, mode, now, oid), w);
    SumUpdate(f.table, i, KeptRow(row, c, mode), w);
    SumAppend(f.table[i := KeptRow(row, c, mode)], SplitRow(row, c, mode, now, oid), w);
  }

  lemma OpenAtRest(f: Cut, order: seq<nat>, mode: Mode, now: int, oid: int, symbol: string)
    requires Indexes(f.table, order) && Distinct(order) && OpenAt(f.table, order, symbol) && order != []
    ensures var f' := CutOne(f, order[0], mode, now, oid);
      Indexes(f'.table, order[1..]) && OpenAt(f'.table, order[1..], symbol) && Distinct(order[1..])
  {
  }

  // ----- the lot at which the quantity runs out

  lemma {:induction false} PrefixNonNegative(table: seq<Row>, order: seq<nat>, k: nat, symbol: string)
    requires Indexes(table, order) && OpenAt(table, order, symbol) && k <= |order|
    ensures Prefix(table, order, k) >= 0
  {
    if k > 0 {
      PrefixNonNegative(table, order, k - 1, symbol);
    }
  }

  lemma OpenAtTail(table: seq<Row>, order: seq<nat>, symbol: string)
    requires Indexes(table, order) && OpenAt(table, order, symbol) && order != []
    ensures Indexes(table, order[1..]) && OpenAt(table, order[1..], symbol)
  {
    assert forall k :: 0 <= k < |order| - 1 ==> order[1..][k] == order[k + 1];
  }

  /** The lots behind one that covers the quantity are not reached. */
  lemma {:induction false} NothingBehindFirst(table: seq<Row>, order: seq<nat>, q: int, symbol: string)
    requires Indexes(table, order) && OpenAt(table, order, symbol)
    ensures forall k :: 0 <= k < |order| ==> Prefix(table, order, k) >= 0
    ensures forall k :: 0 < k < |order| ==> Prefix(table, order, k) >= table[order[0]].qty
  {
    forall k | 0 <= k < |order|
      ensures Prefix(table, order, k) >= 0 && (k > 0 ==> Prefix(table, order, k) >= table[order[0]].qty)
    {
      PrefixNonNegative(table, order, k, symbol);
      if k > 0 {
        PrefixShift(table, table, order, k);
        OpenAtTail(table, order, symbol);
        PrefixNonNegative(table, order[1..], k - 1, symbol);
      }
    }
  }

  /** After a turn that closes its lot, the other lots face the quantity they faced before. */
  lemma LeftShift(f: Cut, order: seq<nat>, k: nat, mode: Mode, now: int, oid: int)
    requires Indexes(f.table, order) && Distinct(order) && 0 < k < |order|
    requires 0 < f.table[order[0]].qty <= f.left
    ensures var f' := CutOne(f, order[0], mode, now, oid);
      && f.left - Prefix(f.table, order, k) == f'.left - Prefix(f'.table, order[1..], k - 1)
      && f.table[order[k]] == f'.table[order[1..][k - 1]]
  {
    var f' := CutOne(f, order[0], mode, now, oid);
    forall j | 1 <= j < |order| ensures f'.table[order[j]] == f.table[order[j]] {
      assert order[0] != order[j];
    }
    PrefixShift(f.table, f'.table, order, k);
  }

  /** What a loop stops at. */
  function StopAt(mode: Mode): int {
    if mode.AtPrice? then 1 else 0
  }

  /** Some lot of the order holds one unit more than there is left to take when its turn comes. */
  predicate OneUnitLarger(table: seq<Row>, order: seq<nat>, q: int, stop: int)
    requires Indexes(table, order)
  {
    exists k :: 0 <= k < |order|
      && q - Prefix(table, order, k) > stop && table[order[k]].qty == q - Prefix(table, order, k) + 1
  }

  /** The lots behind the first face in the second table what they face in the first. */
  predicate SameBehindFirst(table: seq<Row>, order: seq<nat>, q: int, table': seq<Row>, q': int)
    requires Indexes(table, order) && order != [] && Indexes(table', order[1..])
  {
    forall k :: 0 < k < |order| ==>
      && q - Prefix(table, order, k) == q' - Prefix(table', order[1..], k - 1)
      && table[order[k]] == table'[order[1..][k - 1]]
  }

  lemma TurnKeepsRest(f: Cut, order: seq<nat>, mode: Mode, now: int, oid: int)
    requires Indexes(f.table, order) && Distinct(order) && order != [] && 0 < f.table[order[0]].qty <= f.left
    ensures var f' := CutOne(f, order[0], mode, now, oid);
      Indexes(f'.table, order[1..]) && SameBehindFirst(f.table, order, f.left, f'.table, f'.left)
  {
    forall k | 0 < k < |order|
      ensures var f' := CutOne(f, order[0], mode, now, oid);
        && f.left - Prefix(f.table, order, k) == f'.left - Prefix(f'.table, order[1..], k - 1)
        && f.table[order[k]] == f'.table[order[1..][k - 1]]
    {
      LeftShift(f, order, k, mode, now, oid);
    }
  }

  lemma OneUnitLargerShift(table: seq<Row>, order: seq<nat>, q: int, table': seq<Row>, q': int, stop: int)
    requires Indexes(table, order) && order != [] && Indexes(table', order[1..])
    requires SameBehindFirst(table, order, q, table', q') && table[order[0]].qty <= q
    ensures OneUnitLarger(table', order[1..], q', stop) <==> OneUnitLarger(table, order, q, stop)
  {
    if OneUnitLarger(table, order, q, stop) {
      var k :| 0 <= k < |order| && q - Prefix(table, order, k) > stop
        && table[order[k]].qty == q - Prefix(table, order, k) + 1;
      assert k > 0;
      assert table'[order[1..][k - 1]].qty == q' - Prefix(table', order[1..], k - 1) + 1;
    }
    if OneUnitLarger(table', order[1..], q', stop) {
      var k :| 0 <= k < |order[1..]| && q' - Prefix(table', order[1..], k) > stop
        && table'[order[1..][k]].qty == q' - Prefix(table', order[1..], k) + 1;
      assert table[order[k + 1]].qty == q - Prefix(table, order, k + 1) + 1;
    }
  }

  lemma OneUnitLargerFirst(table: seq<Row>, order: seq<nat>, q: int, stop: int, symbol: string)
    requires Indexes(table, order) && OpenAt(table, order, symbol) && order != []
    requires stop >= 0 && stop < q < table[order[0]].qty
    ensures OneUnitLarger(table, order, q, stop) <==> table[order[0]].qty == q + 1
  {
    NothingBehindFirst(table, order, q, symbol);
    assert Prefix(table, order, 0) == 0;
  }

  /** The open quantity goes down by what was taken, and by one unit more exactly when some lot
      holds one unit more than there is left to take when its turn comes. */
  lemma {:induction false} CutLowersOpen(f: Cut, order: seq<nat>, mode: Mode, now: int, oid: int, symbol: string)
    requires Indexes(f.table, order) && Distinct(order) && OpenAt(f.table, order, symbol) && f.left >= 0
    ensures var r := CutLoop(f, order, mode, now, oid);
      var extra := OpenQty(f.table, symbol) - OpenQty(r.table, symbol) - (f.left - r.left);
      && extra == (if OneUnitLarger(f.table, order, f.left, StopAt(mode)) then 1 else 0)
      && (extra == 1 ==> r.left == 0) && 0 <= r.left <= f.left
    decreases |order|
  {
    NothingBehindFirst(f.table, order, f.left, symbol);
    if order != [] && !Exhausted(f, mode) {
      CutOneOpen(f, order[0], mode, now, oid, symbol);
      if f.table[order[0]].qty <= f.left {
        OpenAtRest(f, order, mode, now, oid, symbol);
        TurnKeepsRest(f, order, mode, now, oid);
        var f' := CutOne(f, order[0], mode, now, oid);
        OneUnitLargerShift(f.table, order, f.left, f'.table, f'.left, StopAt(mode));
        CutLowersOpen(f', order[1..], mode, now, oid, symbol);
      } else {
        OneUnitLargerFirst(f.table, order, f.left, StopAt(mode), symbol);
      }
    }
  }

  /** A lot of 1.0001 shares sold by one share: one share is taken and nothing stays open. */
  lemma ToleranceClosesTooMuch(row: Row, price: int, now: int, oid: int)
    requires OpenKis(row, row.ticker) && row.qty == SHARE + 1
    ensures var r := CutLoop(Start([row], SHARE), [0], AtPrice(price), now, oid);
      r.taken == SHARE && r.left == 0 && OpenQty([row], row.ticker) == SHARE + 1 && OpenQty(r.table, row.ticker) == 0
  {
    var f, symbol := Start([row], SHARE), row.ticker;
    CutOneOpen(f, 0, AtPrice(price), now, oid, symbol);
    assert [row][..0] == [] && Sum([row][..0], OpenWeight(symbol)) == 0;
    assert CutLoop(f, [0], AtPrice(price), now, oid) == CutOne(f, 0, AtPrice(price), now, oid);
  }

  // ----- cost of the table

  /** A turn changes the cost of the table by the drift of the split it makes, if it makes one. */
  lemma CutOneCost(f: Cut, i: nat, mode: Mode, now: int, oid: int, symbol: string)
    requires i < |f.table|
    ensures var f', row, w := CutOne(f, i, mode, now, oid), f.table[i], CostWeight(symbol);
      var c := Min(row.qty, f.left);
      Sum(f'.table, w) - Sum(f.table, w)
        == if row.qty <= 0 || ClosesWhole(row, c) || !Kis(row, symbol) then 0 else Drift(row, c, mode)
  {
    var row, w := f.table[i], CostWeight(symbol);
    if row.qty > 0 {
      var c := Min(row.qty, f.left);
      SumUpdate(f.table, i, ClosedRow(row, c, mode, now, oid), w);
      SumUpdate(f.table, i, KeptRow(row, c, mode), w);
      SumAppend(f.table[i := KeptRow(row, c, mode)], SplitRow(row, c, mode, now, oid), w);
    }
  }

  lemma CutOneCostBound(f: Cut, i: nat, mode: Mode, now: int, oid: int, symbol: string)
    requires i < |f.table|
    ensures var f' := CutOne(f, i, mode, now, oid);
      var d := Sum(f'.table, CostWeight(symbol)) - Sum(f.table, CostWeight(symbol));
      && -CENT <= 2 * d <= CENT
      && (mode != AtCost(true) ==> d == 0)
      && (d != 0 ==> f'.left == 0)
  {
    CutOneCost(f, i, mode, now, oid, symbol);
    var row := f.table[i];
    if row.qty > 0 {
      DriftBound(row, Min(row.qty, f.left), mode);
    }
  }

  /** Open plus closed cost is kept, but for at most half a cent in one domestic reconciliation. */
  lemma {:induction false} CutConservesCost(f: Cut, order: seq<nat>, mode: Mode, now: int, oid: int, symbol: string)
    requires Indexes(f.table, order)
    ensures var r := CutLoop(f, order, mode, now, oid);
      var d := Sum(r.table, CostWeight(symbol)) - Sum(f.table, CostWeight(symbol));
      && -CENT <= 2 * d <= CENT
      && (mode != AtCost(true) ==> d == 0)
    decreases |order|
  {
    if order != [] && !Exhausted(f, mode) {
      CutOneCostBound(f, order[0], mode, now, oid, symbol);
      CutConservesCost(CutOne(f, order[0], mode, now, oid), order[1..], mode, now, oid, symbol);
    }
  }

  /** Some lot of the order is left with a part of its units and has a cost below the cent. */
  predicate SplitsBelowCent(table: seq<Row>, order: seq<nat>, q: int)
    requires Indexes(table, order)
  {
    exists k :: 0 <= k < |order|
      && 0 < q - Prefix(table, order, k) < table[order[k]].qty - 1 && table[order[k]].entryAmount % CENT != 0
  }

  lemma SplitsBelowCentShift(table: seq<Row>, order: seq<nat>, q: int, table': seq<Row>, q': int)
    requires Indexes(table, order) && order != [] && Indexes(table', order[1..])
    requires SameBehindFirst(table, order, q, table', q') && table[order[0]].qty <= q
    ensures SplitsBelowCent(table', order[1..], q') <==> SplitsBelowCent(table, order, q)
  {
    if SplitsBelowCent(table, order, q) {
      var k :| 0 <= k < |order| && 0 < q - Prefix(table, order, k) < table[order[k]].qty - 1
        && table[order[k]].entryAmount % CENT != 0;
      assert k > 0;
      assert 0 < q' - Prefix(table', order[1..], k - 1) < table'[order[1..][k - 1]].qty - 1;
    }
    if SplitsBelowCent(table', order[1..], q') {
      var k :| 0 <= k < |order[1..]| && 0 < q' - Prefix(table', order[1..], k) < table'[order[1..][k]].qty - 1
        && table'[order[1..][k]].entryAmount % CENT != 0;
      assert 0 < q - Prefix(table, order, k + 1) < table[order[k + 1]].qty - 1;
    }
  }

  lemma SplitsFirstOnly(table: seq<Row>, order: seq<nat>, q: int, symbol: string)
    requires Indexes(table, order) && OpenAt(table, order, symbol) && order != [] && 0 < q < table[order[0]].qty
    ensures SplitsBelowCent(table, order, q)
        <==> q < table[order[0]].qty - 1 && table[order[0]].entryAmount % CENT != 0
  {
    NothingBehindFirst(table, order, q, symbol);
    assert Prefix(table, order, 0) == 0;
  }

  /** A domestic reconciliation keeps the cost of the table exactly when no lot it splits has a
      cost below the cent. */
  lemma {:induction false} DomesticCostKeptExactly(f: Cut, order: seq<nat>, now: int, oid: int, symbol: string)
    requires Indexes(f.table, order) && Distinct(order) && OpenAt(f.table, order, symbol) && f.left >= 0
    ensures Sum(CutLoop(f, order, AtCost(true), now, oid).table, CostWeight(symbol)) == Sum(f.table, CostWeight(symbol))
        <==> !SplitsBelowCent(f.table, order, f.left)
    decreases |order|
  {
    var mode := AtCost(true);
    NothingBehindFirst(f.table, order, f.left, symbol);
    if order != [] && !Exhausted(f, mode) {
      var row, c := f.table[order[0]], Min(f.table[order[0]].qty, f.left);
      CutOneCost(f, order[0], mode, now, oid, symbol);
      if row.qty <= f.left {
        OpenAtRest(f, order, mode, now, oid, symbol);
        TurnKeepsRest(f, order, mode, now, oid);
        var f' := CutOne(f, order[0], mode, now, oid);
        SplitsBelowCentShift(f.table, order, f.left, f'.table, f'.left);
        DomesticCostKeptExactly(f', order[1..], now, oid, symbol);
      } else {
        DriftFreeExactlyOnCents(row, c, mode);
        SplitsFirstOnly(f.table, order, f.left, symbol);
      }
    }
  }
}
