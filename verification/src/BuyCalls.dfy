/** The overseas buy as a whole: the order client's retries inside the database bookkeeping. */
module BuyCalls {
  import opened Lots
  import opened Ledger
  import opened Positions
  import opened TradingDay
  import opened DayCalls
  import opened Broker
  import K = KisClient

  lemma WholeShares(shares: nat)
    ensures Whole(SHARE * shares)
  {
  }

  /** What the open orders can still fill. */
  function OpenLeft(ts: seq<Ticket>): nat
    requires forall i :: 0 <= i < |ts| ==> TicketOk(ts[i])
  {
    if ts == [] then 0
    else
      assert TicketOk(ts[0]);
      (if ts[0].open then ts[0].qty - ts[0].filled else 0) + OpenLeft(ts[1..])
  }

  /** What fills comes out of what was left. */
  lemma {:induction false} LeftShrinks(ts: seq<Ticket>, ts': seq<Ticket>)
    requires AllEvolve(ts, ts') && forall i :: 0 <= i < |ts| ==> TicketOk(ts[i])
    ensures forall i :: 0 <= i < |ts'| ==> TicketOk(ts'[i])
    ensures Fills(ts) <= Fills(ts') && Fills(ts') + OpenLeft(ts') <= Fills(ts) + OpenLeft(ts)
  {
    forall i | 0 <= i < |ts'| ensures TicketOk(ts'[i]) {
      assert Evolves(ts[i], ts'[i]);
    }
    if ts != [] {
      assert Evolves(ts[0], ts'[0]);
      assert forall i :: 0 <= i < |ts| - 1 ==> ts[1..][i] == ts[i + 1] && ts'[1..][i] == ts'[i + 1];
      LeftShrinks(ts[1..], ts'[1..]);
    }
  }

  /** One call of place_buy_by_amount in the ledger's units: whatever the broker does, what the
      client reports is what runs of trading days take for granted of a buy call. */
  method OrderShares(m: Market, budget: K.Budget, retries: int, price: int, paid: nat)
    returns (report: Report, filled: nat, rest: nat)
    requires m.Valid() && m.Clean() && m.tickets == [] && m.posts == 0 && m.quotes == []
    modifies m
    ensures m.Valid() && filled == SHARE * Fills(m.tickets) && rest == SHARE * OpenLeft(m.tickets)
    ensures Whole(filled) && Whole(rest)
    ensures report.Success? ==> 0 < report.qty <= filled && Whole(report.qty) && report.amount >= 0
    ensures m.posts <= 1 + (if retries > 0 then retries else 0)
    ensures m.Clean() && m.tickets != [] ==> filled <= SHARE * m.tickets[|m.tickets| - 1].qty
    ensures m.Clean() && report.Success? ==> report == Report.Success(filled, price, paid)
    ensures !m.troubled ==> |m.quotes| >= 1
  {
    var r := K.PlaceBuyByAmount(m, budget, retries);
    report :=
      match r
      case Raised => Report.Raised
      case Refused => Report.Refused
      case Bought(qty) => Report.Success(SHARE * qty, price, paid);
    filled, rest := SHARE * Fills(m.tickets), SHARE * OpenLeft(m.tickets);
    WholeShares(Fills(m.tickets));
    WholeShares(OpenLeft(m.tickets));
    if r.Bought? {
      WholeShares(r.qty);
    }
  }

  function Filled(polls: seq<Poll>): int {
    if polls == [] then 0 else polls[0].fill + Filled(polls[1..])
  }

  lemma {:induction false} PollsAppend(polls: seq<Poll>, rest: int, p: Poll)
    requires PollsSane(polls, rest) && SyncSane(p.sync) && Whole(p.fill) && 0 <= p.fill <= rest - Filled(polls)
    ensures PollsSane(polls + [p], rest) && Filled(polls + [p]) == Filled(polls) + p.fill
    decreases |polls|
  {
    if polls == [] {
      assert [] + [p] == [p] && [p][1..] == [];
    } else {
      PollsAppend(polls[1..], rest - polls[0].fill, p);
      assert (polls + [p])[1..] == polls[1..] + [p];
    }
  }

  lemma {:induction false} ConfirmAppend(w: World, i: Instrument, polls: seq<Poll>, p: Poll)
    requires !Confirm(w, i, polls).1
    ensures Confirm(w, i, polls + [p]) == Confirm(Confirm(w, i, polls).0, i, [p])
    decreases |polls|
  {
    hide Synchronize, AfterSync, FillLast;
    if polls == [] {
      assert [] + [p] == [p];
    } else {
      assert (polls + [p])[1..] == polls[1..] + [p];
      var w0 := FillLast(w, polls[0].fill);
      ConfirmAppend(AfterSync(w0, Synchronize(w0, i, polls[0].sync)), i, polls[1..], p);
    }
  }

  lemma ConfirmOne(w: World, i: Instrument, p: Poll)
    ensures var w0 := FillLast(w, p.fill);
      var o := Synchronize(w0, i, p.sync);
      Confirm(w, i, [p]) == (AfterSync(w0, o), o.Synced? && o.added > 0)
  {
    hide Synchronize, AfterSync, FillLast;
    assert [p][1..] == [];
  }

  lemma PollsNone(w: World, i: Instrument)
    ensures Confirm(w, i, []) == (w, false) && PollsSane([], LastLeft(w)) && Filled([]) == 0
  {
  }

  /** The world knows the broker's holding, and what the last order can still fill. */
  ghost predicate Tracks(w: World, m: Market)
    reads m
    requires m.Valid()
  {
    w.held == SHARE * (m.base + Fills(m.tickets)) && SHARE * OpenLeft(m.tickets) <= LastLeft(w)
  }

  /** _confirm_kis_buy_after_uncertain_failure while the broker goes on filling. */
  method ConfirmBuy(w: World, i: Instrument, m: Market, syncs: seq<Sync>)
    returns (w': World, recovered: bool, ghost polls: seq<Poll>)
    requires TradingDay.Sound(w, i.symbol) && m.Valid() && Tracks(w, m)
    requires forall k :: 0 <= k < |syncs| ==> SyncSane(syncs[k])
    modifies m`tickets
    ensures m.Valid() && Tracks(w', m) && TradingDay.Sound(w', i.symbol)
    ensures (w', recovered) == Confirm(w, i, polls)
    ensures PollsSane(polls, LastLeft(w)) && |polls| <= |syncs|
  {
    hide TradingDay.Sound, FillLast, PollsSane, Confirm, Filled, Synchronize;
    w', recovered, polls := w, false, [];
    PollsNone(w, i);
    for k := 0 to |syncs|
      invariant m.Valid() && Tracks(w', m) && TradingDay.Sound(w', i.symbol)
      invariant (w', false) == Confirm(w, i, polls) && !recovered
      invariant PollsSane(polls, LastLeft(w)) && |polls| == k && LastLeft(w') == LastLeft(w) - Filled(polls)
    {
      var before := Fills(m.tickets);
      ghost var was := m.tickets;
      m.Advance();
      LeftShrinks(was, m.tickets);
      var fill := SHARE * (Fills(m.tickets) - before);
      WholeShares(Fills(m.tickets) - before);
      var w0 := FillLast(w', fill);
      FillLastKeeps(w', i.symbol, fill);
      var o := Synchronize(w0, i, syncs[k]);
      SyncKeeps(w0, i, syncs[k]);
      ghost var p := Poll(fill, syncs[k]);
      PollsAppend(polls, LastLeft(w), p);
      ConfirmAppend(w, i, polls, p);
      ConfirmOne(w', i, p);
      w', polls := AfterSync(w0, o), polls + [p];
      if o.Synced? && o.added > 0 {
        return w', true, polls;
      }
    }
  }

  lemma SettledBuy(w: World, i: Instrument, b: BuyEnv)
    requires |b.polls| <= POLLS
    ensures SettleBuy(w, i, b) ==
      if b.report.Success? then (if b.stored then BookBuy(w, i, b) else w)
      else
        var (w', recovered) := Confirm(w, i, b.polls);
        if recovered || !b.stored then w' else w'.(trades := w'.trades + [FailedTrade(i, w'.day)])
  {
    hide Confirm;
  }

  /** From the order on: let the client order, and book the fill or poll. */
  method OrderAndSettle(w: World, i: Instrument, m: Market, budget: K.Budget, retries: int, first: Sync, syncs: seq<Sync>,
                        price: int, paid: nat, stored: bool, now: int, order: int)
    returns (w': World, ghost b: BuyEnv)
    requires TradingDay.Sound(w, i.symbol) && w.held == SHARE * m.base && OpenQty(w.table, i.symbol) == w.held
    requires FilledBuys(w.trades, i.symbol, w.day) == 0 && !Exposed(w, i.symbol) && LastLeft(w) == 0
    requires m.Valid() && m.Clean() && m.tickets == [] && m.posts == 0 && m.quotes == []
    requires SyncSane(first) && (forall k :: 0 <= k < |syncs| ==> SyncSane(syncs[k])) && |syncs| <= POLLS && order < 0
    modifies m
    ensures m.Valid() && b.first == first && StepSane(w, BuyCall(b))
    ensures w' == SettleBuy(PlaceBuy(w, b.filled, b.rest), i, b) && w'.held == SHARE * (m.base + Fills(m.tickets))
    ensures m.Clean() && b.report.Success? ==> b.report.qty == b.filled
    ensures b.stored == stored && (!m.troubled ==> |m.quotes| >= 1)
  {
    var report, filled, rest := OrderShares(m, budget, retries, price, paid);
    PlaceKeeps(w, i.symbol, filled, rest);
    var w2 := PlaceBuy(w, filled, rest);
    assert LastLeft(w2) == rest;
    hide TradingDay.Sound, Confirm, SettleBuy, PlaceBuy, PollsSane;
    if report.Success? {
      PollsNone(w2, i);
      var env := BuyEnv(first, filled, rest, report, [], stored, now, order);
      b := env;
      w' := if stored then BookBuy(w2, i, env) else w2;
    } else {
      var recovered: bool;
      ghost var polls;
      w', recovered, polls := ConfirmBuy(w2, i, m, syncs);
      b := BuyEnv(first, filled, rest, report, polls, stored, now, order);
      if !recovered && stored {
        w' := w'.(trades := w'.trades + [FailedTrade(i, w'.day)]);
      }
    }
    SettledBuy(w2, i, b);
  }

  lemma LaterLeft(w: World)
    requires forall k :: 0 <= k < |w.open| ==> w.open[k].left == 0
    ensures LastLeft(w) == 0 && forall symbol :: !Exposed(w, symbol)
  {
  }

  lemma NotYetToday(w: World, symbol: string)
    requires TradingDay.Sound(w, symbol) && OpenQty(w.table, symbol) == w.held
    requires FilledBuys(w.trades, symbol, w.day) == 0
    ensures FillsOn(w.fills, w.day) == 0
  {
  }

  lemma NothingSent(w: World, i: Instrument, b: BuyEnv)
    requires SyncSane(b.first) && b.polls == [] && b.filled == 0 == b.rest && b.report.Raised? && b.order < 0
    ensures StepSane(w, BuyCall(b))
    ensures !Sends(w, i, BuyCall(b)) ==> Apply(w, i, BuyCall(b)) == AfterFirst(w, i, b.first)
  {
  }

  lemma SentExactly(w: World, i: Instrument, b: BuyEnv)
    requires Sends(w, i, BuyCall(b))
    ensures Apply(w, i, BuyCall(b)) == SettleBuy(PlaceBuy(AfterFirst(w, i, b.first), b.filled, b.rest), i, b)
    ensures FilledBuys(AfterFirst(w, i, b.first).trades, i.symbol, w.day) == 0 && Synchronize(w, i, b.first).Synced?
  {
  }

  lemma SaneAnywhere(w: World, w': World, b: BuyEnv)
    requires StepSane(w, BuyCall(b))
    ensures StepSane(w', BuyCall(b))
  {
  }

  lemma NeverExposed(w: World, i: Instrument, b: BuyEnv)
    requires forall k :: 0 <= k < |w.open| ==> w.open[k].left == 0
    ensures StepCovered(w, i, BuyCall(b))
  {
  }

  /** _execute_buy_kis with the client at work: reconcile, stop if a buy of today is on the books,
      order, and book or poll. With no earlier order open it is a step of a trading-day run, keeps
      its invariant, and ends with the shares the broker really holds. The client gets to its quote
      exactly when the balance is answered, the broker holds nothing that the books miss and no buy
      of today is on them; and a fill that it reports in a clean call leaves the books in step. */
  method ExecuteBuyKis(w: World, i: Instrument, m: Market, budget: K.Budget, retries: int, first: Sync, syncs: seq<Sync>,
                       price: int, paid: nat, stored: bool, now: int, order: int)
    returns (w': World, ghost b: BuyEnv)
    requires TradingDay.Sound(w, i.symbol) && w.held == SHARE * m.base
    requires forall k :: 0 <= k < |w.open| ==> w.open[k].left == 0
    requires m.Valid() && m.Clean() && m.tickets == [] && m.posts == 0 && m.quotes == []
    requires SyncSane(first) && (forall k :: 0 <= k < |syncs| ==> SyncSane(syncs[k])) && |syncs| <= POLLS && order < 0
    modifies m
    ensures m.Valid() && StepSane(w, BuyCall(b)) && w' == Apply(w, i, BuyCall(b))
    ensures TradingDay.Sound(w', i.symbol) && w'.held == SHARE * (m.base + Fills(m.tickets))
    ensures m.posts > 0 ==> FillsOn(w.fills, w.day) == 0 && !first.raises && MayBuy(w, i)
    ensures !first.raises && MayBuy(w, i) && !m.troubled ==> |m.quotes| >= 1
    ensures b.report.Success? && m.Clean() && stored ==> OpenQty(w'.table, i.symbol) == w'.held
  {
    hide TradingDay.Sound, MayBuy, Apply, Sends, SettleBuy, PlaceBuy, OpenQty, StepSane, Exposed, BooksReport;
    var raised := BuyEnv(first, 0, 0, Report.Raised, [], stored, now, order);
    b := raised;
    NothingSent(w, i, raised);
    SendsExactly(w, i, raised);
    SyncKeeps(w, i, first);
    var w1 := AfterSync(w, Synchronize(w, i, first));
    LaterLeft(w1);
    if Sends(w, i, BuyCall(raised)) {
      SentExactly(w, i, raised);
      NotYetToday(w1, i.symbol);
      w', b := OrderAndSettle(w1, i, m, budget, retries, first, syncs, price, paid, stored, now, order);
      SendsExactly(w, i, b);
      SentExactly(w, i, b);
      SaneAnywhere(w1, w, b);
      if b.report.Success? {
        ReportIsBooked(w, i, b);
      }
    } else {
      w' := w1;
    }
    NeverExposed(w, i, b);
    BuyKeeps(w, i, b);
  }
}
