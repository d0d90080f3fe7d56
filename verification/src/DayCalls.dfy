/** What one buy or sell call does, told from the books and the broker before it: when its order goes
    out, and what is booked afterwards. */
module DayCalls {
  import opened Orders
  import opened Ledger
  import opened Lots
  import opened LotSums
  import opened Positions
  import opened Reconciliation
  import opened Bookings
  import opened TradingDay

  // ----- when an order goes out

  /** A FILLED BUY of the symbol and the market day is on the books. */
  predicate BoughtOn(trades: seq<Trade>, symbol: string, day: int) {
    exists k :: 0 <= k < |trades| && trades[k].ticker == symbol && trades[k].side == Buy
                && trades[k].status == Filled && trades[k].day == day
  }

  lemma BoughtExactly(trades: seq<Trade>, symbol: string, day: int)
    ensures FilledBuys(trades, symbol, day) >= 1 <==> BoughtOn(trades, symbol, day)
  {
    FilledBuysCount(trades, symbol, day);
    if BoughtOn(trades, symbol, day) {
      var k :| 0 <= k < |trades| && trades[k].ticker == symbol && trades[k].side == Buy
               && trades[k].status == Filled && trades[k].day == day;
      assert k in BuysOn(trades, symbol, day);
    } else {
      assert forall k :: k !in BuysOn(trades, symbol, day);
    }
  }

  /** The balance is answered, and a price for missing shares is there. */
  predicate Answers(s: Sync) {
    !s.raises && (s.prices.avg > 0 || (s.prices.quote.Some? && s.prices.quote.value > 0))
  }

  /** A reconciliation from books that do not miss shares books no trade; one from books that do
      either books exactly one FILLED BUY of today for the missing shares, or changes nothing. */
  lemma SyncExactly(w: World, i: Instrument, s: Sync)
    requires Sound(w, i.symbol) && SyncSane(s)
    ensures var o := Synchronize(w, i, s);
      var w' := AfterSync(w, o);
      var missing := w.held - OpenQty(w.table, i.symbol);
      && (missing <= 0 ==>
            (o.Synced? <==> !s.raises) && w'.trades == w.trades && (o.Synced? ==> o.added == 0)
            && (missing == 0 ==> w'.table == w.table))
      && (missing > 0 && Answers(s) ==>
            && o.Synced? && o.added == missing && |w'.trades| == |w.trades| + 1 && w.trades <= w'.trades
            && var t := w'.trades[|w.trades|];
               t.ticker == i.symbol && t.side == Buy && t.status == Filled && t.day == w.day && t.filled == missing)
      && (missing > 0 && !Answers(s) ==> !o.Synced? && w'.table == w.table && w'.trades == w.trades)
      && w'.syncs == w.syncs + if o.RolledBack? then 0 else 1
  {
    hide Sound, Reconcile, OpenQty;
    SoundBooks(w, i.symbol);
    if !s.raises {
      var st := Stamps(s.now, w.day, s.closeOrder, s.buyOrder);
      ReconcileIsExactOnWholeShares(w.table, i.symbol, w.held, s.prices, i.domestic, st);
      ReconcileTells(w.table, i.symbol, w.held, s.prices, i.domestic, st);
      ClosingKeepsWhole(w.table, i.symbol, w.held, i.domestic, st);
      InStepCloses(w.table, i.symbol, w.held, i.domestic, st);
      assert w.trades + [] == w.trades;
    }
  }

  lemma SoundBooks(w: World, symbol: string)
    requires Sound(w, symbol)
    ensures WholeLots(w.table, symbol) && w.held >= 0 && Whole(w.held)
  {
  }

  lemma InStepCloses(table: seq<Row>, symbol: string, held: int, domestic: bool, st: Stamps)
    ensures OpenQty(table, symbol) <= held ==> ClosingCut(table, symbol, held, domestic, st).table == table
  {
  }

  /** The broker has no shares that the books miss, and no buy of today is on the books. */
  predicate MayBuy(w: World, i: Instrument) {
    OpenQty(w.table, i.symbol) >= w.held && !BoughtOn(w.trades, i.symbol, w.day)
  }

  lemma SendsExactly(w: World, i: Instrument, b: BuyEnv)
    requires Sound(w, i.symbol) && SyncSane(b.first)
    ensures Sends(w, i, BuyCall(b)) <==> !b.first.raises && MayBuy(w, i)
  {
    hide Sound, Synchronize, AfterSync, OpenQty, BoughtOn;
    SyncExactly(w, i, b.first);
    var w1 := AfterFirst(w, i, b.first);
    BoughtExactly(w.trades, i.symbol, w.day);
    BoughtExactly(w1.trades, i.symbol, w.day);
    if OpenQty(w.table, i.symbol) < w.held && Answers(b.first) {
      NewIsBought(w1.trades, |w.trades|, i.symbol, w.day);
    }
  }

  lemma NewIsBought(trades: seq<Trade>, k: nat, symbol: string, day: int)
    requires k < |trades| && trades[k].ticker == symbol && trades[k].side == Buy
    requires trades[k].status == Filled && trades[k].day == day
    ensures BoughtOn(trades, symbol, day)
  {
  }

  /** The order that polling fills further, if any, belongs to a call that is counted already. */
  predicate LastCounted(w: World, rest: int) {
    rest > 0 ==> w.open != [] && w.open[|w.open| - 1].counted
  }

  lemma {:induction false} ConfirmCountsNothing(w: World, i: Instrument, polls: seq<Poll>, rest: int)
    requires PollsSane(polls, rest) && LastCounted(w, rest)
    ensures Confirm(w, i, polls).0.fills == w.fills
    decreases |polls|
  {
    if polls != [] {
      var w0 := FillLast(w, polls[0].fill);
      var w1 := AfterSync(w0, Synchronize(w0, i, polls[0].sync));
      ConfirmCountsNothing(w1, i, polls[1..], rest - polls[0].fill);
    }
  }

  lemma SettleCountsNothing(w: World, i: Instrument, b: BuyEnv)
    requires PollsSane(b.polls, b.rest) && LastCounted(w, b.rest)
    ensures SettleBuy(w, i, b).fills == w.fills
  {
    if !b.report.Success? {
      var n := if |b.polls| > POLLS then POLLS else |b.polls|;
      PollsPrefix(b.polls, b.rest, n);
      assert b.polls[..|b.polls|] == b.polls;
      ConfirmCountsNothing(w, i, b.polls[..n], b.rest);
    }
  }

  /** A buy that the broker fills goes out exactly when the balance is answered, the broker holds
      nothing that the books miss, and no FILLED BUY of the symbol and today is on the books. */
  lemma BuyGoesOutExactly(w: World, i: Instrument, b: BuyEnv)
    requires Sound(w, i.symbol) && StepSane(w, BuyCall(b)) && b.filled > 0
    ensures Apply(w, i, BuyCall(b)).fills == if !b.first.raises && MayBuy(w, i) then w.fills + [w.day] else w.fills
    ensures !(!b.first.raises && MayBuy(w, i)) ==>
      Apply(w, i, BuyCall(b)).held == w.held && Apply(w, i, BuyCall(b)).open == w.open
  {
    hide Sound, MayBuy, SettleBuy;
    SendsExactly(w, i, b);
    if Sends(w, i, BuyCall(b)) {
      SettleCountsNothing(PlaceBuy(AfterFirst(w, i, b.first), b.filled, b.rest), i, b);
    }
  }

  /** A buy of an earlier day never stops today's: with the books in step, the first buy of a new
      day goes out whenever the balance is answered. */
  lemma NewDayIsFree(w: World, i: Instrument, days: nat, b: BuyEnv)
    requires Sound(w, i.symbol) && OpenQty(w.table, i.symbol) == w.held
    requires forall k :: 0 <= k < |w.trades| ==> w.trades[k].day <= w.day
    requires StepSane(w, BuyCall(b)) && b.filled > 0 && !b.first.raises
    ensures var w' := Apply(w, i, NextDay(days)); Apply(w', i, BuyCall(b)).fills == w.fills + [w'.day]
  {
    var w' := Apply(w, i, NextDay(days));
    StepKeeps(w, i, NextDay(days));
    BuyGoesOutExactly(w', i, b);
  }

  // ----- what a buy call books

  /** The fill of a reported success: one open lot and one FILLED BUY of today, in the figures that
      the client reported. */
  predicate BooksReport(w: World, w': World, i: Instrument, b: BuyEnv)
    requires b.report.Success?
  {
    && |w'.table| == |w.table| + 1 && w.table <= w'.table && |w'.trades| == |w.trades| + 1 && w.trades <= w'.trades
    && var lot, t := w'.table[|w.table|], w'.trades[|w.trades|];
      && lot.ticker == t.ticker == i.symbol && lot.status.Open? && t.side == Buy && t.status == Filled
      && lot.qty == t.requested == t.filled == b.report.qty && lot.entryAmount == t.amount == b.report.amount
      && lot.entryPrice == b.report.price && lot.entryTime == b.now && lot.entryOrder == Some(b.order)
      && t.day == w.day && t.pnl == 0
  }

  /** A reported fill is booked as it is reported, so that the books miss exactly what was filled and
      not reported; when the session fails nothing is, and they miss all of it. */
  lemma ReportIsBooked(w: World, i: Instrument, b: BuyEnv)
    requires Sound(w, i.symbol) && StepSane(w, BuyCall(b)) && Sends(w, i, BuyCall(b)) && b.report.Success?
    ensures var w1, w' := AfterFirst(w, i, b.first), Apply(w, i, BuyCall(b));
      && w'.held == w.held + b.filled
      && (b.stored ==> BooksReport(w1, w', i, b))
      && (!b.stored ==> w'.table == w1.table && w'.trades == w1.trades)
      && w'.held - OpenQty(w'.table, i.symbol) == b.filled - if b.stored then b.report.qty else 0
  {
    var w1 := AfterFirst(w, i, b.first);
    SyncKeeps(w, i, b.first);
    var w' := Apply(w, i, BuyCall(b));
    if b.stored {
      LotAdded(w1.table, i.symbol, w'.table[|w1.table|]);
    }
  }

  /** No shares arrive during the polls. */
  predicate Quiet(polls: seq<Poll>) {
    forall k :: 0 <= k < |polls| ==> polls[k].fill == 0 && SyncSane(polls[k].sync)
  }

  /** One of the first n polls is answered. */
  predicate SomeAnswers(polls: seq<Poll>, n: nat) {
    exists k :: 0 <= k < |polls| && k < n && Answers(polls[k].sync)
  }

  /** The polls find shares that the books miss exactly when one of them is answered. */
  lemma {:induction false} ConfirmExactly(w: World, i: Instrument, polls: seq<Poll>)
    requires Sound(w, i.symbol) && Quiet(polls) && OpenQty(w.table, i.symbol) <= w.held
    ensures var (w', recovered) := Confirm(w, i, polls);
      && (recovered <==> OpenQty(w.table, i.symbol) < w.held && SomeAnswers(polls, |polls|))
      && (if recovered then BoughtOn(w'.trades, i.symbol, w.day) && OpenQty(w'.table, i.symbol) == w.held
          else w'.trades == w.trades && w'.table == w.table)
      && w'.day == w.day && w'.held == w.held && w'.fills == w.fills
    decreases |polls|
  {
    hide Sound, OpenQty, Synchronize, AfterSync, Answers;
    if polls != [] {
      var s := polls[0].sync;
      assert FillLast(w, polls[0].fill) == w;
      var o := Synchronize(w, i, s);
      var w1 := AfterSync(w, o);
      SyncExactly(w, i, s);
      SyncKeeps(w, i, s);
      if o.Synced? && o.added > 0 {
        NewIsBought(w1.trades, |w.trades|, i.symbol, w.day);
      } else {
        ConfirmExactly(w1, i, polls[1..]);
        assert forall k :: 0 < k < |polls| ==> polls[k] == polls[1..][k - 1];
        SomeAnswersLater(polls);
      }
    }
  }

  lemma SomeAnswersLater(polls: seq<Poll>)
    requires polls != []
    ensures SomeAnswers(polls, |polls|) <==> Answers(polls[0].sync) || SomeAnswers(polls[1..], |polls| - 1)
  {
    hide Answers;
    if SomeAnswers(polls[1..], |polls| - 1) {
      var k :| 0 <= k < |polls| - 1 && Answers(polls[1..][k].sync);
      assert Answers(polls[k + 1].sync);
    }
    if SomeAnswers(polls, |polls|) && !Answers(polls[0].sync) {
      var k :| 0 <= k < |polls| && Answers(polls[k].sync);
      assert Answers(polls[1..][k - 1].sync);
    }
  }

  /** A buy that went out and was reported as failed: its shares are booked as today's buy exactly
      when there are any and one of the first six polls is answered; otherwise a FAILED row is all
      that is added, and the day stays free. */
  lemma FailedBuyBooksExactly(w: World, i: Instrument, b: BuyEnv)
    requires Sound(w, i.symbol) && StepSane(w, BuyCall(b)) && StepCovered(w, i, BuyCall(b)) && Sends(w, i, BuyCall(b))
    requires !b.report.Success? && Quiet(b.polls)
    ensures var w1, w' := AfterFirst(w, i, b.first), Apply(w, i, BuyCall(b));
      var recovered := b.filled > 0 && SomeAnswers(b.polls, 6);
      && w'.held == w.held + b.filled
      && (BoughtOn(w'.trades, i.symbol, w.day) <==> recovered)
      && (recovered ==> OpenQty(w'.table, i.symbol) == w'.held)
      && (!recovered ==> w'.table == w1.table)
      && (!recovered && !b.stored ==> w'.trades == w1.trades)
      && (!recovered && b.stored ==>
            && |w'.trades| == |w1.trades| + 1 && w1.trades <= w'.trades
            && var t := w'.trades[|w1.trades|];
               && t.ticker == i.symbol && t.side == Buy && t.status == Failed && t.day == w.day
               && t.requested == t.filled == t.amount == t.pnl == 0)
  {
    hide Sound, OpenQty, Synchronize, AfterSync, Answers, Exposed, Confirm, SomeAnswers, BoughtOn;
    var w1 := AfterFirst(w, i, b.first);
    SyncKeeps(w, i, b.first);
    PlaceKeeps(w1, i.symbol, b.filled, b.rest);
    var w2 := PlaceBuy(w1, b.filled, b.rest);
    var polls := if |b.polls| > POLLS then b.polls[..POLLS] else b.polls;
    ConfirmExactly(w2, i, polls);
    FirstSix(b.polls, polls);
    BoughtExactly(w1.trades, i.symbol, w.day);
    FilledBuysAppend(w1.trades, FailedTrade(i, w.day), i.symbol, w.day);
    BoughtExactly(w1.trades + [FailedTrade(i, w.day)], i.symbol, w.day);
  }

  lemma FirstSix(polls: seq<Poll>, first: seq<Poll>)
    requires first == if |polls| > 6 then polls[..6] else polls
    ensures SomeAnswers(first, |first|) <==> SomeAnswers(polls, 6)
  {
    hide Answers;
    if SomeAnswers(polls, 6) {
      var k :| 0 <= k < |polls| && k < 6 && Answers(polls[k].sync);
      assert Answers(first[k].sync);
    }
    if SomeAnswers(first, |first|) {
      var k :| 0 <= k < |first| && Answers(first[k].sync);
      assert Answers(polls[k].sync);
    }
  }

  // ----- sells

  /** No lot of the symbol is open that no KIS order opened. */
  predicate NothingForeign(table: seq<Row>, symbol: string) {
    forall k :: 0 <= k < |table| && table[k].ticker == symbol && table[k].status.Open? ==>
      table[k].entryOrder.Some? && table[k].entryOrder.value < 0
  }

  lemma {:induction false} CutKeepsForeign(f: Cut, order: seq<nat>, mode: Mode, now: int, oid: int, symbol: string)
    requires Indexes(f.table, order) && Distinct(order) && OpenAt(f.table, order, symbol)
    ensures NothingForeign(CutLoop(f, order, mode, now, oid).table, symbol) <==> NothingForeign(f.table, symbol)
    decreases |order|
  {
    if order != [] && !Exhausted(f, mode) {
      var f' := CutOne(f, order[0], mode, now, oid);
      OpenAtRest(f, order, mode, now, oid, symbol);
      CutKeepsForeign(f', order[1..], mode, now, oid, symbol);
      TurnKeepsForeign(f, order[0], mode, now, oid, symbol);
    }
  }

  lemma TurnKeepsForeign(f: Cut, i: nat, mode: Mode, now: int, oid: int, symbol: string)
    requires i < |f.table| && OpenKis(f.table[i], symbol)
    ensures NothingForeign(CutOne(f, i, mode, now, oid).table, symbol) <==> NothingForeign(f.table, symbol)
  {
    var f' := CutOne(f, i, mode, now, oid);
    assert forall k :: 0 <= k < |f.table| && k != i ==> f'.table[k] == f.table[k];
  }

  lemma ClosingKeepsForeign(table: seq<Row>, symbol: string, held: int, domestic: bool, st: Stamps)
    requires WholeLots(table, symbol)
    ensures NothingForeign(ClosingCut(table, symbol, held, domestic, st).table, symbol) <==> NothingForeign(table, symbol)
  {
    hide CutLoop, Fifo, OpenQty, WholeLots, OpenAt, NothingForeign;
    WholeLotsSelected(table, symbol);
    FifoCoversOpen(table, symbol);
    var f := Start(table, OpenQty(table, symbol) - held);
    CutKeepsForeign(f, Fifo(table, symbol), AtCost(domestic), st.now, st.closeOrder, symbol);
  }

  lemma SyncKeepsForeign(w: World, i: Instrument, s: Sync)
    requires Sound(w, i.symbol) && SyncSane(s)
    ensures NothingForeign(AfterFirst(w, i, s).table, i.symbol) <==> NothingForeign(w.table, i.symbol)
  {
    if !s.raises {
      var st := Stamps(s.now, w.day, s.closeOrder, s.buyOrder);
      SoundBooks(w, i.symbol);
      hide OpenQty, Sound, NothingForeign, ClosingCut, WholeLots;
      ClosingKeepsForeign(w.table, i.symbol, w.held, i.domestic, st);
      var closed := ClosingCut(w.table, i.symbol, w.held, i.domestic, st).table;
      var missing := w.held - OpenQty(closed, i.symbol);
      if missing > 0 && PriceOf(s.prices) > 0 {
        LotIsNotForeign(closed, SyntheticLot(i.symbol, missing, PriceOf(s.prices), st), i.symbol);
      }
    }
  }

  lemma LotIsNotForeign(table: seq<Row>, lot: Row, symbol: string)
    requires Kis(lot, symbol)
    ensures NothingForeign(table + [lot], symbol) <==> NothingForeign(table, symbol)
  {
    assert forall k :: 0 <= k < |table| ==> (table + [lot])[k] == table[k];
  }

  /** The broker holds shares, all the books' open lots of the symbol are KIS lots, and the books can
      be brought in step. */
  predicate MaySell(w: World, i: Instrument, s: SellEnv) {
    && !s.first.raises && (OpenQty(w.table, i.symbol) >= w.held || Answers(s.first))
    && w.held > 0 && NothingForeign(w.table, i.symbol) && !s.withheld
  }

  lemma SellSendsExactly(w: World, i: Instrument, s: SellEnv)
    requires Sound(w, i.symbol) && SyncSane(s.first)
    ensures Sends(w, i, SellCall(s)) <==> MaySell(w, i, s)
  {
    hide Sound, OpenQty, Synchronize, AfterSync;
    SyncExactly(w, i, s.first);
    SyncKeeps(w, i, s.first);
    SyncKeepsForeign(w, i, s.first);
    SoundBooks(w, i.symbol);
  }

  /** A sell goes out exactly when the broker holds shares, no lot of another broker is open, the
      books can be brought in step, and no guard withholds it; and a fill that is reported is booked
      first-in first-out against all the shares held. */
  lemma SellGoesOutExactly(w: World, i: Instrument, s: SellEnv)
    requires Sound(w, i.symbol) && StepSane(w, SellCall(s))
    ensures var w1, w' := AfterFirst(w, i, s.first), Apply(w, i, SellCall(s));
      && w'.held == (if MaySell(w, i, s) then w.held - s.filled else w.held) && w'.fills == w.fills
      && (if MaySell(w, i, s) && s.reported > 0 && s.stored then
            var sold := Min(s.reported, w.held);
            && OpenQty(w'.table, i.symbol) == w.held - sold && |w'.trades| == |w1.trades| + 1 && w1.trades <= w'.trades
            && var t := w'.trades[|w1.trades|];
              && t.ticker == i.symbol && t.side == Sell && t.requested == w.held && t.filled == sold && t.day == w.day
              && t.status == if sold == w.held then Filled else Partial
          else w'.table == w1.table && w'.trades == w1.trades)
  {
    SellSendsExactly(w, i, s);
    SyncKeeps(w, i, s.first);
    var w1 := AfterFirst(w, i, s.first);
    if MaySell(w, i, s) && s.reported > 0 {
      SoundBooks(w1, i.symbol);
      SellBooks(w1, i, s);
    }
  }

  lemma SellBooks(w: World, i: Instrument, s: SellEnv)
    requires WholeLots(w.table, i.symbol) && Whole(s.reported) && s.reported > 0
    requires OpenQty(w.table, i.symbol) == w.held > 0 && Whole(w.held)
    ensures var r := SellFill(w.table, i.symbol, w.held, s.reported, s.price, s.now, w.day, s.order);
      var sold := Min(s.reported, w.held);
      && r.Booked? && OpenQty(r.table, i.symbol) == w.held - sold
      && r.trade.ticker == i.symbol && r.trade.side == Sell && r.trade.requested == w.held && r.trade.day == w.day
      && r.trade.filled == sold && r.trade.status == if sold == w.held then Filled else Partial
  {
    hide CutLoop, Fifo, OpenQty;
    SellFillIsFifo(w.table, i.symbol, w.held, s.reported, s.price, s.now, w.day, s.order);
    SellTradeTells(w.table, i.symbol, w.held, s.reported, s.price, s.now, w.day, s.order);
  }
}
