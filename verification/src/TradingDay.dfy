/** Whole runs of KIS buys and sells on one symbol: when at most one buy call per market day fills,
    and a ledger whose totals are what was booked. */
module TradingDay {
  import opened Orders
  import opened Ledger
  import opened Lots
  import opened Positions
  import opened Reconciliation

  /** What a buy call left open at the broker: the call's day, the quantity that can still fill,
      and whether the call is already among the filling ones. */
  datatype Late = Late(day: int, left: int, counted: bool)

  /** The broker's true holding is `held`, and `open` what earlier buy calls left open there; the
      rest is the database, followed by a record of the market days of filling buy calls and of
      what has been booked. */
  datatype World = World(
    table: seq<Row>,
    trades: seq<Trade>,
    held: int,
    day: int,
    fills: seq<int>,
    open: seq<Late>,
    bookedQty: int,
    bookedCost: int,
    syncs: nat)

  /** One reconciliation: the balance call raises, or answers truthfully with these prices. */
  datatype Sync = Sync(raises: bool, prices: Prices, now: int, closeOrder: int, buyOrder: int)

  /** What place_buy_by_amount tells its caller. */
  datatype Report = Raised | Refused | Success(qty: int, price: int, amount: int)

  /** One poll after an uncertain failure: what the order still filled before it. */
  datatype Poll = Poll(fill: int, sync: Sync)

  /** The environment of one _execute_buy_kis call: how much the broker filled and left open by the
      time the order client returned, what was reported, the polls that follow a failure, and
      whether the database writes commit. */
  datatype BuyEnv = BuyEnv(
    first: Sync, filled: int, rest: int, report: Report, polls: seq<Poll>, stored: bool, now: int, order: int)

  datatype SellEnv = SellEnv(
    first: Sync, withheld: bool, filled: int, reported: int, price: int, stored: bool, now: int, order: int)

  datatype Step =
    | NextDay(days: nat)
    | BuyCall(b: BuyEnv)
    | SellCall(s: SellEnv)
    | LateFill(k: nat, shares: int)
    | LateClose(k: nat)

  /** The symbol traded, and whether it takes the domestic code path. */
  datatype Instrument = Instrument(symbol: string, domestic: bool)

  const POLLS := 6

  // ----- steps

  function Synchronize(w: World, i: Instrument, s: Sync): Outcome {
    if s.raises then RolledBack
    else Reconcile(w.table, i.symbol, w.held, s.prices, i.domestic, Stamps(s.now, w.day, s.closeOrder, s.buyOrder))
  }

  function AfterSync(w: World, o: Outcome): World {
    match o
    case RolledBack => w
    case NoPrice(t) => w.(table := t, syncs := w.syncs + 1)
    case Synced(t, added, _, trades, cost) =>
      w.(table := t, trades := w.trades + trades, bookedQty := w.bookedQty + added,
         bookedCost := w.bookedCost + cost, syncs := w.syncs + 1)
  }

  /** An order that a call left open fills further. */
  function FillLate(w: World, k: nat, shares: int): World
    requires k < |w.open|
  {
    var o := w.open[k];
    w.(held := w.held + shares,
       fills := if o.counted then w.fills else w.fills + [o.day],
       open := w.open[k := Late(o.day, o.left - shares, true)])
  }

  function FillLast(w: World, shares: int): World {
    if shares > 0 && w.open != [] then FillLate(w, |w.open| - 1, shares) else w
  }

  /** _confirm_kis_buy_after_uncertain_failure: poll until a reconciliation books shares. */
  function Confirm(w: World, i: Instrument, polls: seq<Poll>): (World, bool)
    decreases |polls|
  {
    if polls == [] then (w, false)
    else
      var w0 := FillLast(w, polls[0].fill);
      var o := Synchronize(w0, i, polls[0].sync);
      if o.Synced? && o.added > 0 then (AfterSync(w0, o), true)
      else Confirm(AfterSync(w0, o), i, polls[1..])
  }

  function FailedTrade(i: Instrument, day: int): Trade {
    Trade(i.symbol, Buy, 0, 0, 0, 0, Failed, day)
  }

  function BookBuy(w: World, i: Instrument, b: BuyEnv): World
    requires b.report.Success?
  {
    var lot := Row(i.symbol, b.report.qty, b.report.price, b.report.amount, b.now, Some(b.order), Open);
    var trade := Trade(i.symbol, Buy, b.report.qty, b.report.qty, b.report.amount, 0, Filled, w.day);
    w.(table := w.table + [lot], trades := w.trades + [trade],
       bookedQty := w.bookedQty + lot.qty, bookedCost := w.bookedCost + lot.entryAmount)
  }

  /** The order goes out: the broker's holding grows by what it fills at once. */
  function PlaceBuy(w: World, filled: int, rest: int): World {
    w.(held := w.held + filled,
       fills := if filled > 0 then w.fills + [w.day] else w.fills,
       open := if rest > 0 then w.open + [Late(w.day, rest, filled > 0)] else w.open)
  }

  function SettleBuy(w: World, i: Instrument, b: BuyEnv): World {
    if b.report.Success? then (if b.stored then BookBuy(w, i, b) else w)
    else
      var (w', recovered) := Confirm(w, i, if |b.polls| > POLLS then b.polls[..POLLS] else b.polls);
      if recovered || !b.stored then w' else w'.(trades := w'.trades + [FailedTrade(i, w'.day)])
  }

  /** _execute_buy_kis and _execute_buy_kis_domestic */
  function ExecuteBuy(w: World, i: Instrument, b: BuyEnv): World {
    var o := Synchronize(w, i, b.first);
    var w1 := AfterSync(w, o);
    if !o.Synced? then w1
    else if FilledBuys(w1.trades, i.symbol, w1.day) >= 1 then w1
    else SettleBuy(PlaceBuy(w1, b.filled, b.rest), i, b)
  }

  /** Any open row of the symbol that is not a KIS row stops a KIS sell. */
  predicate OnlyKisOpen(table: seq<Row>, symbol: string) {
    forall k :: 0 <= k < |table| && table[k].ticker == symbol && table[k].status.Open? ==> Kis(table[k], symbol)
  }

  function SettleSell(w: World, i: Instrument, s: SellEnv, requested: int): World {
    if s.reported <= 0 then w
    else
      var r := SellFill(w.table, i.symbol, requested, s.reported, s.price, s.now, w.day, s.order);
      if r.Booked? && s.stored then w.(table := r.table, trades := w.trades + [r.trade]) else w
  }

  /** _execute_sell_kis and its domestic twin; `withheld` covers the profit guard and every
      refusal before an order is sent. */
  function ExecuteSell(w: World, i: Instrument, s: SellEnv): World {
    var o := Synchronize(w, i, s.first);
    var w1 := AfterSync(w, o);
    var total := OpenQty(w1.table, i.symbol);
    if !o.Synced? || total <= 0 || !OnlyKisOpen(w1.table, i.symbol) || s.withheld then w1
    else SettleSell(w1.(held := w1.held - s.filled), i, s, total)
  }

  function Apply(w: World, i: Instrument, step: Step): World {
    match step
    case NextDay(days) => w.(day := w.day + 1 + days)
    case BuyCall(b) => ExecuteBuy(w, i, b)
    case SellCall(s) => ExecuteSell(w, i, s)
    case LateFill(k, shares) => if k < |w.open| then FillLate(w, k, shares) else w
    case LateClose(k) => if k < |w.open| then w.(open := w.open[k := w.open[k].(left := 0)]) else w
  }

  function Run(w: World, i: Instrument, steps: seq<Step>): World
    decreases |steps|
  {
    if steps == [] then w else Run(Apply(w, i, steps[0]), i, steps[1..])
  }

  // ----- what the environment may do

  predicate SyncSane(s: Sync) {
    s.closeOrder < 0 && s.buyOrder < 0
  }

  /** The order fills no more than it has left, before one poll or another. */
  predicate PollsSane(polls: seq<Poll>, rest: int)
    decreases |polls|
  {
    polls != [] ==>
      && SyncSane(polls[0].sync) && 0 <= polls[0].fill <= rest && Whole(polls[0].fill)
      && PollsSane(polls[1..], rest - polls[0].fill)
  }

  /** The broker trades whole shares, never sells what it does not hold, fills no order beyond its
      quantity, and the client reports no more than was filled when it reports success. */
  predicate StepSane(w: World, step: Step) {
    match step
    case NextDay(_) => true
    case BuyCall(b) =>
      && SyncSane(b.first) && PollsSane(b.polls, b.rest)
      && b.filled >= 0 && Whole(b.filled) && b.rest >= 0 && Whole(b.rest) && b.order < 0
      && (b.report.Success? ==> 0 < b.report.qty <= b.filled && Whole(b.report.qty) && b.report.amount >= 0)
    case SellCall(s) =>
      && SyncSane(s.first) && 0 <= s.filled <= w.held && Whole(s.filled) && Whole(s.reported) && s.order < 0
    case LateFill(k, shares) => k < |w.open| && 0 < shares <= w.open[k].left && Whole(shares)
    case LateClose(_) => true
  }

  predicate RunSane(w: World, i: Instrument, steps: seq<Step>)
    decreases |steps|
  {
    steps != [] ==> StepSane(w, steps[0]) && RunSane(Apply(w, i, steps[0]), i, steps[1..])
  }

  // ----- at most one filling buy call a day

  function FillsOn(fills: seq<int>, day: int): nat {
    if fills == [] then 0
    else FillsOn(fills[..|fills| - 1], day) + if fills[|fills| - 1] == day then 1 else 0
  }

  /** The order is still open and its call has not filled yet. */
  predicate Waiting(o: Late) {
    o.left > 0 && !o.counted
  }

  /** A buy call of today left an order open that may yet make it a filling one, and no buy of
      today is on the books. */
  predicate Exposed(w: World, symbol: string) {
    && FilledBuys(w.trades, symbol, w.day) == 0
    && exists k :: 0 <= k < |w.open| && Waiting(w.open[k]) && w.open[k].day == w.day
  }

  function AfterFirst(w: World, i: Instrument, s: Sync): World {
    AfterSync(w, Synchronize(w, i, s))
  }

  predicate Sellable(w: World, i: Instrument) {
    OpenQty(w.table, i.symbol) > 0 && OnlyKisOpen(w.table, i.symbol)
  }

  /** The call gets to the point of sending its order. */
  predicate Sends(w: World, i: Instrument, step: Step) {
    match step
    case BuyCall(b) =>
      Synchronize(w, i, b.first).Synced? && FilledBuys(AfterFirst(w, i, b.first).trades, i.symbol, w.day) == 0
    case SellCall(s) =>
      Synchronize(w, i, s.first).Synced? && !s.withheld && Sellable(AfterFirst(w, i, s.first), i)
    case _ => false
  }

  function FirstSync(step: Step): Sync
    requires step.BuyCall? || step.SellCall?
  {
    if step.BuyCall? then step.b.first else step.s.first
  }

  /** No order goes out while the world is exposed. */
  predicate StepCovered(w: World, i: Instrument, step: Step) {
    Sends(w, i, step) ==> !Exposed(AfterFirst(w, i, FirstSync(step)), i.symbol)
  }

  predicate RunCovered(w: World, i: Instrument, steps: seq<Step>)
    decreases |steps|
  {
    steps != [] ==> StepCovered(w, i, steps[0]) && RunCovered(Apply(w, i, steps[0]), i, steps[1..])
  }

  /** A buy that filled today shows: as a FILLED BUY of today, or as shares not yet booked; and while
      the world is exposed, shares that fill late would show. */
  predicate Accounted(w: World, symbol: string) {
    && (FillsOn(w.fills, w.day) >= 1 ==>
          FilledBuys(w.trades, symbol, w.day) >= 1 || OpenQty(w.table, symbol) < w.held)
    && (Exposed(w, symbol) ==> OpenQty(w.table, symbol) <= w.held)
  }

  ghost predicate OncePerDay(w: World) {
    && (forall k :: 0 <= k < |w.fills| ==> w.fills[k] <= w.day)
    && (forall d: int :: FillsOn(w.fills, d) <= 1)
  }

  /** A waiting order is the only one of its day, and no other call of that day filled. */
  predicate OpenSound(w: World) {
    && (forall k :: 0 <= k < |w.open| ==> w.open[k].left >= 0 && Whole(w.open[k].left) && w.open[k].day <= w.day)
    && (forall k :: 0 <= k < |w.open| && Waiting(w.open[k]) ==> FillsOn(w.fills, w.open[k].day) == 0)
    && (forall j, k :: 0 <= j < k < |w.open| && Waiting(w.open[j]) && Waiting(w.open[k]) ==>
          w.open[j].day != w.open[k].day)
  }

  ghost predicate Sound(w: World, symbol: string) {
    && WholeLots(w.table, symbol) && w.held >= 0 && Whole(w.held)
    && Accounted(w, symbol) && OncePerDay(w) && OpenSound(w)
  }

  lemma {:induction false} FilledBuysPlus(a: seq<Trade>, b: seq<Trade>, symbol: string, day: int)
    ensures FilledBuys(a + b, symbol, day) == FilledBuys(a, symbol, day) + FilledBuys(b, symbol, day)
    decreases |b|
  {
    if b == [] {
      assert a + b == a;
    } else {
      var n := |b| - 1;
      FilledBuysPlus(a, b[..n], symbol, day);
      assert (a + b)[..|a + b| - 1] == a + b[..n];
    }
  }

  lemma FilledBuysAppend(a: seq<Trade>, t: Trade, symbol: string, day: int)
    ensures FilledBuys(a + [t], symbol, day)
         == FilledBuys(a, symbol, day) + if IsFilledBuy(t, symbol, day) then 1 else 0
  {
    assert (a + [t])[..|a|] == a;
  }

  /** What a reconciliation does to the books: a successful one leaves exactly the broker's shares
      open, and books missing shares as a FILLED BUY of today. */
  lemma SyncBooksMissing(w: World, i: Instrument, s: Sync)
    requires WholeLots(w.table, i.symbol) && w.held >= 0 && Whole(w.held) && SyncSane(s)
    ensures var o := Synchronize(w, i, s);
      var w' := AfterSync(w, o);
      && WholeLots(w'.table, i.symbol)
      && FilledBuys(w'.trades, i.symbol, w.day) >= FilledBuys(w.trades, i.symbol, w.day)
      && (if o.Synced? then OpenQty(w'.table, i.symbol) == w.held else w'.table == w.table)
      && (o.Synced? && OpenQty(w.table, i.symbol) < w.held ==>
            o.added > 0 && FilledBuys(w'.trades, i.symbol, w.day) >= 1)
  {
    if !s.raises {
      var st := Stamps(s.now, w.day, s.closeOrder, s.buyOrder);
      ReconcileIsExactOnWholeShares(w.table, i.symbol, w.held, s.prices, i.domestic, st);
      var o := Synchronize(w, i, s);
      if o.Synced? {
        FilledBuysPlus(w.trades, o.trades, i.symbol, w.day);
        var missing := w.held - OpenQty(w.table, i.symbol);
        if missing > 0 {
          var t := SyntheticTrade(i.symbol, missing, PriceOf(s.prices), st);
          FilledBuysAppend([], t, i.symbol, w.day);
          assert [] + [t] == [t];
        }
      }
    }
  }

  /** A reconciliation keeps the invariant; a successful one leaves exactly the broker's shares
      open, and today's unbooked fill, if there was one, booked under today. */
  lemma SyncKeeps(w: World, i: Instrument, s: Sync)
    requires Sound(w, i.symbol) && SyncSane(s)
    ensures var o := Synchronize(w, i, s);
      var w' := AfterSync(w, o);
      && Sound(w', i.symbol) && w'.held == w.held && w'.fills == w.fills && w'.day == w.day && w'.open == w.open
      && (o.Synced? ==> OpenQty(w'.table, i.symbol) == w.held)
      && (o.Synced? && OpenQty(w.table, i.symbol) < w.held ==>
            o.added > 0 && FilledBuys(w'.trades, i.symbol, w.day) >= 1)
  {
    SyncBooksMissing(w, i, s);
  }

  lemma FillsAppend(fills: seq<int>, day: int, d: int)
    ensures FillsOn(fills + [day], d) == FillsOn(fills, d) + if d == day then 1 else 0
  {
    assert (fills + [day])[..|fills|] == fills;
  }

  /** Shares that fill late keep the invariant. */
  lemma FillLateKeeps(w: World, symbol: string, k: nat, shares: int)
    requires Sound(w, symbol) && k < |w.open| && 0 < shares <= w.open[k].left && Whole(shares)
    ensures Sound(FillLate(w, k, shares), symbol)
  {
    var w', o := FillLate(w, k, shares), w.open[k];
    forall d: int ensures FillsOn(w'.fills, d) == FillsOn(w.fills, d) + if !o.counted && d == o.day then 1 else 0 {
      FillsAppend(w.fills, o.day, d);
    }
    assert forall j :: 0 <= j < |w.open| && j != k ==> w'.open[j] == w.open[j];
    if Exposed(w', symbol) {
      var j :| 0 <= j < |w'.open| && Waiting(w'.open[j]) && w'.open[j].day == w.day;
      assert j != k;
    }
  }

  /** What the last order of the world may still fill. */
  function LastLeft(w: World): int {
    if w.open == [] then 0 else w.open[|w.open| - 1].left
  }

  lemma FillLastKeeps(w: World, symbol: string, shares: int)
    requires Sound(w, symbol) && Whole(shares) && 0 <= shares <= LastLeft(w)
    ensures Sound(FillLast(w, shares), symbol) && LastLeft(FillLast(w, shares)) == LastLeft(w) - shares
    ensures FillLast(w, shares).held == w.held + shares
  {
    if shares > 0 {
      FillLateKeeps(w, symbol, |w.open| - 1, shares);
    }
  }

  lemma {:induction false} ConfirmKeeps(w: World, i: Instrument, polls: seq<Poll>, rest: int)
    requires Sound(w, i.symbol) && PollsSane(polls, rest) && 0 <= rest <= LastLeft(w)
    ensures Sound(Confirm(w, i, polls).0, i.symbol)
    decreases |polls|
  {
    hide Sound, FillLast;
    if polls != [] {
      FillLastKeeps(w, i.symbol, polls[0].fill);
      var w0 := FillLast(w, polls[0].fill);
      SyncKeeps(w0, i, polls[0].sync);
      ConfirmKeeps(AfterSync(w0, Synchronize(w0, i, polls[0].sync)), i, polls[1..], rest - polls[0].fill);
    }
  }

  lemma PlaceCounts(w: World, filled: int, rest: int, d: int)
    ensures FillsOn(PlaceBuy(w, filled, rest).fills, d) == FillsOn(w.fills, d) + if filled > 0 && d == w.day then 1 else 0
  {
    FillsAppend(w.fills, w.day, d);
  }

  lemma PlaceKeepsOnce(w: World, filled: int, rest: int)
    requires OncePerDay(w) && FillsOn(w.fills, w.day) == 0
    ensures OncePerDay(PlaceBuy(w, filled, rest))
  {
    forall d: int ensures FillsOn(PlaceBuy(w, filled, rest).fills, d) <= 1 {
      PlaceCounts(w, filled, rest, d);
    }
  }

  /** No order of today is waiting. */
  predicate NoneWaits(w: World) {
    forall k :: 0 <= k < |w.open| && w.open[k].day == w.day ==> !Waiting(w.open[k])
  }

  lemma PlaceKeepsOpen(w: World, filled: int, rest: int)
    requires OpenSound(w) && FillsOn(w.fills, w.day) == 0 && NoneWaits(w) && rest >= 0 && Whole(rest)
    ensures OpenSound(PlaceBuy(w, filled, rest))
  {
    hide FillsOn;
    var w' := PlaceBuy(w, filled, rest);
    var late := Late(w.day, rest, filled > 0);
    assert w'.open == w.open || w'.open == w.open + [late];
    forall k | 0 <= k < |w'.open| && Waiting(w'.open[k]) ensures FillsOn(w'.fills, w'.open[k].day) == 0 {
      PlaceCounts(w, filled, rest, w'.open[k].day);
      if k < |w.open| {
        assert w'.open[k] == w.open[k];
      } else {
        assert w'.open[k] == late;
      }
    }
    forall j, k | 0 <= j < k < |w'.open| && Waiting(w'.open[j]) && Waiting(w'.open[k])
      ensures w'.open[j].day != w'.open[k].day
    {
      assert w'.open[j] == w.open[j];
    }
  }

  /** With today's count at zero, the ledger in step and nothing exposed, placing the order is safe. */
  lemma PlaceKeeps(w: World, symbol: string, filled: int, rest: int)
    requires Sound(w, symbol) && OpenQty(w.table, symbol) == w.held
    requires FilledBuys(w.trades, symbol, w.day) == 0 && !Exposed(w, symbol)
    requires filled >= 0 && Whole(filled) && rest >= 0 && Whole(rest)
    ensures var w' := PlaceBuy(w, filled, rest);
      Sound(w', symbol) && OpenQty(w'.table, symbol) == w'.held - filled && (rest > 0 ==> LastLeft(w') == rest)
  {
    assert FillsOn(w.fills, w.day) == 0;
    assert NoneWaits(w);
    PlaceKeepsOnce(w, filled, rest);
    PlaceKeepsOpen(w, filled, rest);
    PlaceCounts(w, filled, rest, w.day);
    hide OncePerDay, OpenSound, OpenQty, WholeLots, FilledBuys, FillsOn;
  }

  lemma {:induction false} PollsPrefix(polls: seq<Poll>, rest: int, n: nat)
    requires PollsSane(polls, rest) && n <= |polls|
    ensures PollsSane(polls[..n], rest)
    decreases n
  {
    if n > 0 {
      PollsPrefix(polls[1..], rest - polls[0].fill, n - 1);
      assert polls[..n][1..] == polls[1..][..n - 1];
    }
  }

  lemma BookBuyKeeps(w: World, i: Instrument, b: BuyEnv)
    requires Sound(w, i.symbol) && StepSane(w, BuyCall(b)) && b.report.Success?
    ensures Sound(BookBuy(w, i, b), i.symbol)
  {
    var w' := BookBuy(w, i, b);
    WholeLotAdded(w.table, i.symbol, w'.table[|w.table|]);
    FilledBuysAppend(w.trades, w'.trades[|w.trades|], i.symbol, w.day);
  }

  lemma FailedTradeKeeps(w: World, i: Instrument)
    requires Sound(w, i.symbol)
    ensures Sound(w.(trades := w.trades + [FailedTrade(i, w.day)]), i.symbol)
  {
    FilledBuysAppend(w.trades, FailedTrade(i, w.day), i.symbol, w.day);
  }

  lemma SettleBuyKeeps(w: World, i: Instrument, b: BuyEnv)
    requires Sound(w, i.symbol) && StepSane(w, BuyCall(b)) && b.rest <= LastLeft(w)
    ensures Sound(SettleBuy(w, i, b), i.symbol)
  {
    if b.report.Success? {
      BookBuyKeeps(w, i, b);
    } else {
      var n := if |b.polls| > POLLS then POLLS else |b.polls|;
      PollsPrefix(b.polls, b.rest, n);
      assert b.polls[..|b.polls|] == b.polls;
      ConfirmKeeps(w, i, b.polls[..n], b.rest);
      FailedTradeKeeps(Confirm(w, i, b.polls[..n]).0, i);
    }
  }

  lemma RestIsLast(w: World, symbol: string, filled: int, rest: int)
    requires Sound(w, symbol) && rest >= 0
    ensures rest <= LastLeft(PlaceBuy(w, filled, rest))
  {
  }

  lemma BuyKeeps(w: World, i: Instrument, b: BuyEnv)
    requires Sound(w, i.symbol) && StepSane(w, BuyCall(b)) && StepCovered(w, i, BuyCall(b))
    ensures Sound(ExecuteBuy(w, i, b), i.symbol)
  {
    hide Sound, SettleBuy, Exposed, PlaceBuy;
    SyncKeeps(w, i, b.first);
    if Sends(w, i, BuyCall(b)) {
      var w1 := AfterFirst(w, i, b.first);
      PlaceKeeps(w1, i.symbol, b.filled, b.rest);
      var w2 := PlaceBuy(w1, b.filled, b.rest);
      RestIsLast(w1, i.symbol, b.filled, b.rest);
      SettleBuyKeeps(w2, i, b);
    }
  }

  lemma FillKeepsWhole(w: World, i: Instrument, s: SellEnv, requested: int)
    requires WholeLots(w.table, i.symbol) && Whole(s.reported) && s.reported > 0
    ensures var r := SellFill(w.table, i.symbol, requested, s.reported, s.price, s.now, w.day, s.order);
      r.Booked? ==>
        && WholeLots(r.table, i.symbol)
        && FilledBuys(w.trades + [r.trade], i.symbol, w.day) == FilledBuys(w.trades, i.symbol, w.day)
  {
    WholeLotsSelected(w.table, i.symbol);
    FifoCoversOpen(w.table, i.symbol);
    CutKeepsWhole(Start(w.table, s.reported), Fifo(w.table, i.symbol), AtPrice(s.price), s.now, s.order, i.symbol);
    var r := SellFill(w.table, i.symbol, requested, s.reported, s.price, s.now, w.day, s.order);
    if r.Booked? {
      FilledBuysAppend(w.trades, r.trade, i.symbol, w.day);
    }
  }

  lemma BooksChange(w: World, symbol: string, table: seq<Row>, trades: seq<Trade>)
    requires Sound(w, symbol) && !Exposed(w, symbol) && WholeLots(table, symbol)
    requires FilledBuys(trades, symbol, w.day) == FilledBuys(w.trades, symbol, w.day)
    requires FillsOn(w.fills, w.day) >= 1 ==> FilledBuys(w.trades, symbol, w.day) >= 1
    ensures Sound(w.(table := table, trades := trades), symbol)
  {
  }

  lemma SettleSellKeeps(w: World, i: Instrument, s: SellEnv, requested: int)
    requires Sound(w, i.symbol) && !Exposed(w, i.symbol) && Whole(s.reported)
    requires FillsOn(w.fills, w.day) >= 1 ==> FilledBuys(w.trades, i.symbol, w.day) >= 1
    ensures Sound(SettleSell(w, i, s, requested), i.symbol)
  {
    if s.reported > 0 {
      var r := SellFill(w.table, i.symbol, requested, s.reported, s.price, s.now, w.day, s.order);
      FillKeepsWhole(w, i, s, requested);
      if r.Booked? {
        BooksChange(w, i.symbol, r.table, w.trades + [r.trade]);
      }
    }
  }

  lemma SharesLeave(w: World, symbol: string, sold: int)
    requires Sound(w, symbol) && !Exposed(w, symbol) && OpenQty(w.table, symbol) == w.held
    requires 0 <= sold <= w.held && Whole(sold)
    ensures var w' := w.(held := w.held - sold);
      && Sound(w', symbol) && !Exposed(w', symbol)
      && (FillsOn(w'.fills, w'.day) >= 1 ==> FilledBuys(w'.trades, symbol, w'.day) >= 1)
  {
  }

  lemma SellKeeps(w: World, i: Instrument, s: SellEnv)
    requires Sound(w, i.symbol) && StepSane(w, SellCall(s)) && StepCovered(w, i, SellCall(s))
    ensures Sound(ExecuteSell(w, i, s), i.symbol)
  {
    hide Sound, SettleSell, Exposed;
    SyncKeeps(w, i, s.first);
    if Sends(w, i, SellCall(s)) {
      var w1 := AfterFirst(w, i, s.first);
      SharesLeave(w1, i.symbol, s.filled);
      SettleSellKeeps(w1.(held := w1.held - s.filled), i, s, OpenQty(w1.table, i.symbol));
    }
  }

  lemma OpenIsWhole(w: World, symbol: string)
    requires Sound(w, symbol)
    ensures Whole(OpenQty(w.table, symbol))
  {
    WholeLotsSelected(w.table, symbol);
  }

  lemma {:induction false} NoFillsLater(fills: seq<int>, day: int)
    requires forall k :: 0 <= k < |fills| ==> fills[k] < day
    ensures FillsOn(fills, day) == 0
  {
    if fills != [] {
      NoFillsLater(fills[..|fills| - 1], day);
    }
  }

  lemma CloseKeeps(w: World, i: Instrument, k: nat)
    requires Sound(w, i.symbol)
    ensures Sound(Apply(w, i, LateClose(k)), i.symbol)
  {
    if k < |w.open| {
      var w' := Apply(w, i, LateClose(k));
      assert forall j :: 0 <= j < |w.open| && j != k ==> w'.open[j] == w.open[j];
      if Exposed(w', i.symbol) {
        var j :| 0 <= j < |w'.open| && Waiting(w'.open[j]) && w'.open[j].day == w.day;
        assert j != k;
      }
    }
  }

  lemma StepKeeps(w: World, i: Instrument, step: Step)
    requires Sound(w, i.symbol) && StepSane(w, step) && StepCovered(w, i, step)
    ensures Sound(Apply(w, i, step), i.symbol)
  {
    match step
    case NextDay(days) => NoFillsLater(w.fills, w.day + 1 + days);
    case BuyCall(b) => BuyKeeps(w, i, b);
    case SellCall(s) => SellKeeps(w, i, s);
    case LateFill(k, shares) => FillLateKeeps(w, i.symbol, k, shares);
    case LateClose(k) => CloseKeeps(w, i, k);
  }

  lemma {:induction false} RunKeeps(w: World, i: Instrument, steps: seq<Step>)
    requires Sound(w, i.symbol) && RunSane(w, i, steps) && RunCovered(w, i, steps)
    ensures Sound(Run(w, i, steps), i.symbol)
    decreases |steps|
  {
    if steps != [] {
      StepKeeps(w, i, steps[0]);
      RunKeeps(Apply(w, i, steps[0]), i, steps[1..]);
    }
  }

  function StartOf(table: seq<Row>, trades: seq<Trade>, held: int, day: int): World {
    World(table, trades, held, day, [], [], 0, 0, 0)
  }

  /** Over any run of buy and sell calls, with database writes that may roll back after a fill,
      fills that may be reported as failures, and orders that fill after their call, at most one
      buy call a market day fills, provided that no order goes out while one of that day is still
      open unfilled and no buy of the day is on the books. */
  lemma OneFillingBuyPerDay(table: seq<Row>, trades: seq<Trade>, held: int, day: int,
                            i: Instrument, steps: seq<Step>, d: int)
    requires WholeLots(table, i.symbol) && held >= 0 && Whole(held)
    requires RunSane(StartOf(table, trades, held, day), i, steps)
    requires RunCovered(StartOf(table, trades, held, day), i, steps)
    ensures FillsOn(Run(StartOf(table, trades, held, day), i, steps).fills, d) <= 1
  {
    RunKeeps(StartOf(table, trades, held, day), i, steps);
  }

  // ----- the proviso is exact

  /** Whatever the step's environment does and whatever covered steps follow, no day has two
      filling buy calls. */
  ghost predicate Safe(w: World, i: Instrument, step: Step) {
    forall steps :: RunSane(Apply(w, i, step), i, steps) && RunCovered(Apply(w, i, step), i, steps) ==>
      OncePerDay(Run(Apply(w, i, step), i, steps))
  }

  lemma CoveredIsSafe(w: World, i: Instrument, step: Step)
    requires Sound(w, i.symbol) && StepSane(w, step) && StepCovered(w, i, step)
    ensures Safe(w, i, step)
  {
    StepKeeps(w, i, step);
    forall steps | RunSane(Apply(w, i, step), i, steps) && RunCovered(Apply(w, i, step), i, steps)
      ensures OncePerDay(Run(Apply(w, i, step), i, steps))
    {
      RunKeeps(Apply(w, i, step), i, steps);
    }
  }

  /** An order of one share that fills at once and is reported as failed. */
  function OneShare(first: Sync): BuyEnv {
    BuyEnv(first, SHARE, 0, Raised, [], false, 0, -1)
  }

  lemma OneShareGoesOut(w: World, i: Instrument, first: Sync)
    requires Sends(w, i, BuyCall(OneShare(first)))
    ensures Apply(w, i, BuyCall(OneShare(first))) == PlaceBuy(AfterFirst(w, i, first), SHARE, 0)
  {
  }

  lemma RunOne(w: World, i: Instrument, x: Step)
    ensures Run(w, i, [x]) == Apply(w, i, x)
    ensures RunSane(w, i, [x]) <==> StepSane(w, x)
    ensures RunCovered(w, i, [x]) <==> StepCovered(w, i, x)
  {
    hide Apply, StepSane, StepCovered;
    assert [x][1..] == [];
    assert Run(Apply(w, i, x), i, []) == Apply(w, i, x);
  }

  lemma RunTwo(w: World, i: Instrument, x: Step, y: Step)
    ensures Run(w, i, [x, y]) == Apply(Apply(w, i, x), i, y)
    ensures StepSane(w, x) && StepSane(Apply(w, i, x), y) ==> RunSane(w, i, [x, y])
    ensures StepCovered(w, i, x) && StepCovered(Apply(w, i, x), i, y) ==> RunCovered(w, i, [x, y])
  {
    hide Apply, StepSane, StepCovered;
    assert [x, y][1..] == [y];
    RunOne(Apply(w, i, x), i, y);
  }

  /** A covered continuation with two filling calls on one day shows a step unsafe. */
  lemma TwiceIsUnsafe(w: World, i: Instrument, step: Step, w': World, steps: seq<Step>, day: int)
    requires w' == Apply(w, i, step) && RunSane(w', i, steps) && RunCovered(w', i, steps)
    requires FillsOn(Run(w', i, steps).fills, day) >= 2
    ensures !Safe(w, i, step)
  {
    hide Apply, Run, RunSane, RunCovered;
  }

  lemma LateFillCounts(w: World, i: Instrument, k: nat)
    requires k < |w.open| && Waiting(w.open[k]) && w.open[k].day == w.day && Whole(w.open[k].left)
    requires FillsOn(w.fills, w.day) >= 1
    ensures var late := LateFill(k, w.open[k].left);
      StepSane(w, late) && StepCovered(w, i, late) && FillsOn(Apply(w, i, late).fills, w.day) >= 2
  {
    FillsAppend(w.fills, w.day, w.day);
  }

  lemma ExposedBuyIsUnsafe(w: World, i: Instrument, first: Sync)
    requires Sound(w, i.symbol) && SyncSane(first) && Sends(w, i, BuyCall(OneShare(first)))
    requires Exposed(AfterFirst(w, i, first), i.symbol)
    ensures StepSane(w, BuyCall(OneShare(first))) && !Safe(w, i, BuyCall(OneShare(first)))
  {
    SyncKeeps(w, i, first);
    var w1 := AfterFirst(w, i, first);
    var k :| 0 <= k < |w1.open| && Waiting(w1.open[k]) && w1.open[k].day == w1.day;
    OneShareGoesOut(w, i, first);
    hide Apply, Safe, Sends, Sound, AfterFirst;
    var w2, late := PlaceBuy(w1, SHARE, 0), LateFill(k, w1.open[k].left);
    FillsAppend(w1.fills, w1.day, w1.day);
    LateFillCounts(w2, i, k);
    RunOne(w2, i, late);
    TwiceIsUnsafe(w, i, BuyCall(OneShare(first)), w2, [late], w1.day);
  }

  /** Sending a buy is safe in every environment exactly when nothing is exposed after the
      reconciliation that precedes it. */
  lemma BuyIsSafeExactly(w: World, i: Instrument, first: Sync)
    requires Sound(w, i.symbol) && SyncSane(first) && Sends(w, i, BuyCall(OneShare(first)))
    ensures !Exposed(AfterFirst(w, i, first), i.symbol)
        <==> forall b: BuyEnv :: b.first == first && StepSane(w, BuyCall(b)) ==> Safe(w, i, BuyCall(b))
  {
    if Exposed(AfterFirst(w, i, first), i.symbol) {
      ExposedBuyIsUnsafe(w, i, first);
      assert OneShare(first).first == first;
    } else {
      forall b: BuyEnv | b.first == first && StepSane(w, BuyCall(b)) ensures Safe(w, i, BuyCall(b)) {
        CoveredIsSafe(w, i, BuyCall(b));
      }
    }
  }

  /** A sell of one share that fills and is never booked. */
  function Unbooked(first: Sync): SellEnv {
    SellEnv(first, false, SHARE, 0, 0, false, 0, -1)
  }

  /** A balance query that is answered, with a price. */
  function Answered(): Sync {
    Sync(false, Prices(1, None), 0, -1, -1)
  }

  lemma UnbookedGoesOut(w: World, i: Instrument, first: Sync)
    requires Sends(w, i, SellCall(Unbooked(first)))
    ensures var w1 := AfterFirst(w, i, first); Apply(w, i, SellCall(Unbooked(first))) == w1.(held := w1.held - SHARE)
  {
  }

  lemma InStepSyncs(w: World, i: Instrument)
    requires OpenQty(w.table, i.symbol) == w.held
    ensures Synchronize(w, i, Answered()) == Synced(w.table, 0, 0, [], 0)
    ensures var w' := AfterFirst(w, i, Answered());
      w'.table == w.table && w'.trades == w.trades && w'.fills == w.fills && w'.open == w.open && w'.day == w.day
  {
    assert w.trades + [] == w.trades;
  }

  /** After an unbooked sell, shares that fill late only restore the balance, so the next buy call
      sees nothing of them. */
  lemma SecondBuyGoesOut(w1: World, w3: World, i: Instrument, k: nat)
    requires Sound(w1, i.symbol) && Exposed(w1, i.symbol) && OpenQty(w1.table, i.symbol) == w1.held >= SHARE
    requires k < |w1.open| && Waiting(w1.open[k]) && w1.open[k].day == w1.day
    requires w3 == FillLate(w1.(held := w1.held - SHARE), k, SHARE)
    ensures var buy := BuyCall(OneShare(Answered()));
      && StepSane(w3, buy) && StepCovered(w3, i, buy)
      && FillsOn(Apply(w3, i, buy).fills, w1.day) >= 2
  {
    InStepSyncs(w3, i);
    var w4 := AfterFirst(w3, i, Answered());
    assert forall j :: 0 <= j < |w1.open| && j != k ==> w3.open[j] == w1.open[j];
    assert !Exposed(w4, i.symbol);
    OneShareGoesOut(w3, i, Answered());
    FillsAppend(w1.fills, w1.day, w1.day);
    FillsAppend(w3.fills, w1.day, w1.day);
  }

  lemma LateShare(w1: World, i: Instrument, k: nat)
    requires k < |w1.open| && Waiting(w1.open[k]) && Whole(w1.open[k].left)
    ensures var w2, late := w1.(held := w1.held - SHARE), LateFill(k, SHARE);
      StepSane(w2, late) && StepCovered(w2, i, late) && Apply(w2, i, late) == FillLate(w2, k, SHARE)
  {
  }

  lemma ExposedSellIsUnsafe(w: World, i: Instrument, first: Sync)
    requires Sound(w, i.symbol) && SyncSane(first) && Sends(w, i, SellCall(Unbooked(first)))
    requires Exposed(AfterFirst(w, i, first), i.symbol)
    ensures StepSane(w, SellCall(Unbooked(first))) && !Safe(w, i, SellCall(Unbooked(first)))
  {
    SyncKeeps(w, i, first);
    var w1 := AfterFirst(w, i, first);
    var k :| 0 <= k < |w1.open| && Waiting(w1.open[k]) && w1.open[k].day == w1.day;
    OpenIsWhole(w1, i.symbol);
    UnbookedGoesOut(w, i, first);
    assert StepSane(w, SellCall(Unbooked(first)));
    hide Apply, Safe, Sends, Sound, AfterFirst, FillLate;
    var w2, late := w1.(held := w1.held - SHARE), LateFill(k, SHARE);
    var buy := BuyCall(OneShare(Answered()));
    LateShare(w1, i, k);
    SecondBuyGoesOut(w1, FillLate(w2, k, SHARE), i, k);
    RunTwo(w2, i, late, buy);
    TwiceIsUnsafe(w, i, SellCall(Unbooked(first)), w2, [late, buy], w1.day);
  }

  /** And so is sending a sell. */
  lemma SellIsSafeExactly(w: World, i: Instrument, first: Sync)
    requires Sound(w, i.symbol) && SyncSane(first) && Sends(w, i, SellCall(Unbooked(first)))
    ensures !Exposed(AfterFirst(w, i, first), i.symbol)
        <==> forall s: SellEnv :: s.first == first && StepSane(w, SellCall(s)) ==> Safe(w, i, SellCall(s))
  {
    if Exposed(AfterFirst(w, i, first), i.symbol) {
      ExposedSellIsUnsafe(w, i, first);
      assert Unbooked(first).first == first;
    } else {
      forall s: SellEnv | s.first == first && StepSane(w, SellCall(s)) ensures Safe(w, i, SellCall(s)) {
        CoveredIsSafe(w, i, SellCall(s));
      }
    }
  }
}
