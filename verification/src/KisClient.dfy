/** The overseas buy of the KIS client: submit, watch, cancel, retry. */
module KisClient {
  import opened Orders
  import opened Broker
  import opened Prices

  datatype OrderState = Filled | StillOpen | ClosedUnfilled | FilledViaBalance | Unknown

  /** What wait_for_order_outcome returns. */
  datatype Outcome = Outcome(state: OrderState, filled: nat, unfilled: nat)

  /** The exception leaves the call, a failure reply, or a confirmed fill. */
  datatype BuyResult = Raised | Refused | Bought(qty: nat)

  /** After watching and cancelling one order. */
  datatype Verdict = Fill(qty: nat) | NoFill | GiveUp | Throws

  /** Shares that arrived since the client looked at its holding. */
  function Delta(m: Market, pre: nat): int
    reads m
  {
    m.base + Fills(m.tickets) - pre
  }

  function Least(a: int, b: int): int {
    if a < b then a else b
  }

  /** The outcome is true of the order at this moment; `missed` says that a balance query raised. */
  ghost predicate Tells(m: Market, id: nat, expected: nat, pre: nat, o: Outcome, missed: bool)
    reads m
    requires id < |m.tickets|
  {
    var t := m.tickets[id];
    match o.state
    case Filled => 0 < o.filled == t.filled && o.unfilled == 0 && !t.open
    case StillOpen => t.open && o.filled == t.filled && o.unfilled == t.qty - t.filled > 0
    case ClosedUnfilled => o.filled == 0 == o.unfilled && Dead(t)
    case FilledViaBalance => 0 < o.filled == Least(expected, Delta(m, pre)) && o.filled + o.unfilled == expected
    case Unknown => !t.open && o.filled == 0 && o.unfilled == expected && (!missed ==> Delta(m, pre) <= 0)
  }

  lemma {:induction false} EvolveTwice(a: seq<Ticket>, b: seq<Ticket>, c: seq<Ticket>)
    requires AllEvolve(a, b) && AllEvolve(b, c)
    ensures AllEvolve(a, c)
  {
  }

  /** The fill that a series of balance answers shows: the first increase, unless a query raises
      before it, which ends the polling as if nothing had been found. */
  function Inferred(answers: seq<Answer<nat>>, expected: nat, pre: nat): nat {
    if answers == [] || answers[0].Errs? then 0
    else if answers[0].value <= pre then Inferred(answers[1..], expected, pre)
    else if expected < answers[0].value - pre then expected
    else answers[0].value - pre
  }

  lemma {:induction false} InferredAfter(quiet: seq<Answer<nat>>, rest: seq<Answer<nat>>, expected: nat, pre: nat)
    requires forall i :: 0 <= i < |quiet| ==> quiet[i].Says? && quiet[i].value <= pre
    ensures Inferred(quiet + rest, expected, pre) == Inferred(rest, expected, pre)
  {
    if quiet == [] {
      assert quiet + rest == rest;
    } else {
      assert (quiet + rest)[1..] == quiet[1..] + rest;
      InferredAfter(quiet[1..], rest, expected, pre);
    }
  }

  lemma FillsLater(ts: seq<Ticket>, ts': seq<Ticket>)
    requires AllEvolve(ts, ts')
    ensures Fills(ts) <= Fills(ts')
  {
  }

  /** What one polling of the balance saw: `fills` is what the call's orders had filled at each
      query, from `first` before the polling to `last` after it. */
  predicate Observed(answers: seq<Answer<nat>>, fills: seq<nat>, base: nat, first: nat, last: nat) {
    && |answers| == |fills| > 0
    && (forall i :: 0 <= i < |answers| && answers[i].Says? ==> answers[i].value == base + fills[i])
    && (forall i, j :: 0 <= i <= j < |fills| ==> fills[i] <= fills[j])
    && first <= fills[0] && fills[|fills| - 1] <= last
  }

  lemma ObserveMore(answers: seq<Answer<nat>>, fills: seq<nat>, base: nat, first: nat, last: nat,
                    a: Answer<nat>, f: nat)
    requires |answers| == |fills| && first <= last <= f && (a.Says? ==> a.value == base + f)
    requires answers != [] ==> Observed(answers, fills, base, first, last)
    ensures Observed(answers + [a], fills + [f], base, first, f)
  {
  }

  /** The polling goes on to its last query unless one raises or shows an increase. */
  predicate PolledEnough(answers: seq<Answer<nat>>, pre: nat, count: nat)
    requires answers != []
  {
    var end := answers[|answers| - 1];
    |answers| <= count && (|answers| < count ==> end.Errs? || end.value > pre)
  }

  function PollCount(polls: nat): nat {
    if polls > 1 then polls else 1
  }

  /** The polling ended with a query that raised. */
  predicate Missed(answers: seq<Answer<nat>>) {
    answers != [] && answers[|answers| - 1].Errs?
  }

  /** _infer_fill_from_balance_delta for a BUY */
  method InferFill(m: Market, expected: nat, pre: nat, polls: nat)
    returns (qty: nat, ghost answers: seq<Answer<nat>>, ghost fills: seq<nat>)
    requires m.Valid() && expected >= 1
    modifies m`tickets, m`troubled, m`misses, m`asks
    ensures m.Valid() && AllEvolve(old(m.tickets), m.tickets)
    ensures Observed(answers, fills, m.base, Fills(old(m.tickets)), Fills(m.tickets))
    ensures PolledEnough(answers, pre, PollCount(polls)) && qty == Inferred(answers, expected, pre)
    ensures qty > 0 ==> qty == Least(expected, Delta(m, pre))
    ensures m.troubled == (old(m.troubled) || Missed(answers))
    ensures m.asks == old(m.asks) + |answers|
    ensures m.misses == old(m.misses) + if Missed(answers) then 1 else 0
    ensures qty == 0 && !Missed(answers) ==> Delta(m, pre) <= 0
  {
    var count := PollCount(polls);
    var k := 0;
    answers, fills := [], [];
    while k < count
      invariant 0 <= k <= count && m.Valid() && AllEvolve(old(m.tickets), m.tickets)
      invariant k > 0 ==> Delta(m, pre) <= 0
      invariant k > 0 ==> Observed(answers, fills, m.base, Fills(old(m.tickets)), Fills(m.tickets))
      invariant |answers| == |fills| == k && m.troubled == old(m.troubled) && m.misses == old(m.misses)
      invariant m.asks == old(m.asks) + k
      invariant forall i :: 0 <= i < |answers| ==> answers[i].Says? && answers[i].value <= pre
    {
      ghost var was := m.tickets;
      var now := m.Balance();
      EvolveTwice(old(m.tickets), was, m.tickets);
      FillsLater(old(m.tickets), was);
      FillsLater(was, m.tickets);
      ObserveMore(answers, fills, m.base, Fills(old(m.tickets)), Fills(was), now, Fills(m.tickets));
      InferredAfter(answers, [now], expected, pre);
      answers, fills := answers + [now], fills + [Fills(m.tickets)];
      if now.Errs? {
        return 0, answers, fills;
      }
      if now.value > pre {
        return if expected < now.value - pre then expected else now.value - pre, answers, fills;
      }
      k := k + 1;
    }
    InferredAfter(answers, [], expected, pre);
    assert answers + [] == answers;
    return 0, answers, fills;
  }

  /** The history row says that the order is over and nothing was filled. */
  predicate ShowsClosed(row: Option<Execution>) {
    row.Some? && row.value.filled == 0 == row.value.unfilled && row.value.finished
  }

  /** One round of wait_for_order_outcome: the history row, then the unfilled list. */
  method Look(m: Market, id: nat) returns (r: Answer<Option<Outcome>>, ghost row: Answer<Option<Execution>>)
    requires m.Valid() && id < |m.tickets|
    modifies m`tickets, m`troubled, m`misses, m`looks
    ensures m.Valid() && AllEvolve(old(m.tickets), m.tickets)
    ensures r.Says? && r.value.Some? ==>
      r.value.value.state in {Filled, StillOpen, ClosedUnfilled} && Tells(m, id, 0, 0, r.value.value, false)
    ensures m.looks == old(m.looks) + 1
    ensures r == Says(None) ==> !m.tickets[id].open
    ensures m.troubled == (old(m.troubled) || r.Errs?) && m.misses == old(m.misses) + if r.Errs? then 1 else 0
    ensures r.Says? ==> row.Says? && (row.value.Some? && row.value.value.filled > 0 ==> r.value.Some?)
    ensures r.Says? ==> (r.value.Some? && r.value.value.state.ClosedUnfilled? <==> ShowsClosed(row.value))
  {
    var seen := m.History(id);
    row := seen;
    if seen.Errs? {
      return Errs, row;
    }
    if seen.value.Some? {
      var e := seen.value.value;
      if e.filled > 0 && e.unfilled == 0 {
        return Says(Some(Outcome(Filled, e.filled, 0))), row;
      } else if e.unfilled > 0 {
        return Says(Some(Outcome(StillOpen, e.filled, e.unfilled))), row;
      } else if e.finished {
        return Says(Some(Outcome(ClosedUnfilled, 0, 0))), row;
      }
    }
    ghost var was := m.tickets;
    var open := m.Unfilled(id);
    EvolveTwice(old(m.tickets), was, m.tickets);
    if open.Errs? {
      return Errs, row;
    }
    if open.value.Some? {
      return Says(Some(Outcome(StillOpen, open.value.value.filled, open.value.value.unfilled))), row;
    }
    return Says(None), row;
  }

  method WaitForOutcome(m: Market, id: nat, expected: nat, pre: nat, polls: nat)
    returns (r: Answer<Outcome>, ghost missed: bool)
    requires m.Valid() && id < |m.tickets| && expected >= 1
    modifies m`tickets, m`troubled, m`misses, m`asks, m`looks
    ensures m.Valid() && AllEvolve(old(m.tickets), m.tickets)
    ensures r.Says? ==> Tells(m, id, expected, pre, r.value, missed)
    ensures old(m.looks) < m.looks <= old(m.looks) + PollCount(polls)
    ensures r.Says? && r.value.state in {FilledViaBalance, Unknown} ==> m.looks == old(m.looks) + PollCount(polls)
    ensures m.asks <= old(m.asks) + 4
    ensures r.Says? && r.value.state.Unknown? && !missed ==> m.asks == old(m.asks) + 4
    ensures m.troubled == (old(m.troubled) || r.Errs? || missed)
    ensures m.misses == old(m.misses) + if r.Errs? || missed then 1 else 0
  {
    missed := false;
    var count := PollCount(polls);
    var k := 0;
    while k < count
      invariant 0 <= k <= count && m.Valid() && AllEvolve(old(m.tickets), m.tickets)
      invariant m.looks == old(m.looks) + k && m.asks == old(m.asks)
      invariant (k > 0 ==> !m.tickets[id].open) && m.troubled == old(m.troubled) && m.misses == old(m.misses)
    {
      ghost var was := m.tickets;
      var seen, _ := Look(m, id);
      EvolveTwice(old(m.tickets), was, m.tickets);
      if seen.Errs? {
        return Errs, missed;
      }
      if seen.value.Some? {
        return Says(seen.value.value), missed;
      }
      k := k + 1;
    }
    ghost var was := m.tickets;
    var qty, answers, _ := InferFill(m, expected, pre, 4);
    missed := Missed(answers);
    EvolveTwice(old(m.tickets), was, m.tickets);
    r := Says(if qty > 0 then Outcome(FilledViaBalance, qty, expected - qty) else Outcome(Unknown, 0, expected));
  }

  /** Only the newest order of the call can have filled or still be open. */
  ghost predicate OnlyLastAlive(ts: seq<Ticket>) {
    ts != [] ==> AllDead(ts[..|ts| - 1])
  }

  lemma DeadStays(ts: seq<Ticket>, ts': seq<Ticket>)
    requires AllEvolve(ts, ts')
    ensures OnlyLastAlive(ts) ==> OnlyLastAlive(ts')
    ensures AllDead(ts) ==> AllDead(ts')
  {
  }

  /** A positive count the client saw is never more than what has been filled, and is the order's
      fill when no other order of the call filled. */
  lemma SeenIsFilled(m: Market, id: nat, expected: nat, pre: nat, o: Outcome, missed: bool)
    requires m.Valid() && id < |m.tickets| && Tells(m, id, expected, pre, o, missed) && m.base == pre
    requires m.tickets[id].qty == expected
    ensures o.filled <= Fills(m.tickets)
    ensures o.filled > 0 && Newest(m, id) ==> o.filled == m.tickets[id].filled
  {
    FillOf(m.tickets, id);
    if Newest(m, id) {
      FillsOfLast(m.tickets);
      assert TicketOk(m.tickets[id]);
    }
  }

  /** The order is the newest of the call, and the only one that can have filled. */
  ghost predicate Newest(m: Market, id: nat)
    reads m
  {
    id + 1 == |m.tickets| && OnlyLastAlive(m.tickets)
  }

  /** A cancellation attempt after a look at the order. */
  method TryCancel(m: Market, id: nat, expected: nat, pre: nat, ghost o: Outcome, ghost missed: bool)
    returns (r: CancelReply)
    requires m.Valid() && id < |m.tickets| && Tells(m, id, expected, pre, o, missed) && m.base == pre
    requires m.tickets[id].qty == expected
    modifies m`tickets, m`raced, m`troubled, m`cancels
    ensures m.Valid() && AllEvolve(old(m.tickets), m.tickets) && (old(m.raced) ==> m.raced)
    ensures m.troubled == (old(m.troubled) || r.NotCancelled?) && m.cancels == old(m.cancels) + 1
    ensures o.filled <= Fills(m.tickets)
    ensures r.Cancelled? ==> old(m.tickets)[id].open
    ensures r.Cancelled? && !m.raced && o.filled == 0 ==> Dead(m.tickets[id])
    ensures !m.raced && o.filled > 0 && Newest(m, id) && old(Newest(m, id)) ==> o.filled == m.tickets[id].filled
  {
    SeenIsFilled(m, id, expected, pre, o, missed);
    ghost var was := m.tickets;
    r := m.Cancel(id);
    FillsLater(was, m.tickets);
  }

  method LookAgain(m: Market, id: nat, expected: nat, pre: nat) returns (r: Answer<Outcome>, ghost missed: bool)
    requires m.Valid() && id < |m.tickets| && m.tickets[id].qty == expected >= 1 && m.base == pre
    modifies m`tickets, m`troubled, m`misses, m`asks, m`looks
    ensures m.Valid() && AllEvolve(old(m.tickets), m.tickets)
    ensures old(m.looks) < m.looks <= old(m.looks) + 8
    ensures r.Says? && r.value.state in {FilledViaBalance, Unknown} ==> m.looks == old(m.looks) + 8
    ensures m.troubled == (old(m.troubled) || r.Errs? || missed)
    ensures m.misses == old(m.misses) + if r.Errs? || missed then 1 else 0
    ensures r.Says? ==> Tells(m, id, expected, pre, r.value, missed) && r.value.filled <= Fills(m.tickets)
    ensures r.Says? && r.value.filled > 0 && Newest(m, id) ==> r.value.filled == m.tickets[id].filled
  {
    r, missed := WaitForOutcome(m, id, expected, pre, 8);
    if r.Says? {
      SeenIsFilled(m, id, expected, pre, r.value, missed);
    }
  }

  lemma NewestStays(ts: seq<Ticket>, m: Market, id: nat)
    requires AllEvolve(ts, m.tickets) && id + 1 == |ts| && OnlyLastAlive(ts)
    ensures Newest(m, id)
  {
    DeadStays(ts, m.tickets);
  }

  lemma SameOrder(ts: seq<Ticket>, ts': seq<Ticket>, id: nat)
    requires AllEvolve(ts, ts') && id < |ts|
    ensures |ts'| == |ts| && ts'[id].qty == ts[id].qty
  {
  }

  function Concluded(filled: nat): Verdict {
    if filled == 0 then NoFill else Fill(filled)
  }

  /** What follows from the look after a failed cancellation, and from the look after a second one
      that failed as well: a filled or closed order is taken at its word; otherwise the client gives
      up, unless the error was a transient one and the rest can be cancelled or has gone since. */
  function Aftermath(seen: Answer<Outcome>, again: Option<Answer<Outcome>>, transient: bool, qty: nat): Verdict {
    match seen
    case Errs => Throws
    case Says(o) =>
      if o.filled >= qty || (o.filled == 0 && o.state.ClosedUnfilled?) then Concluded(o.filled)
      else if !transient then GiveUp
      else
        match again
        case None => Concluded(o.filled)
        case Some(Errs) => Throws
        case Some(Says(o')) => if o'.filled < qty && o'.unfilled > 0 then GiveUp else Concluded(o'.filled)
  }

  /** The cancellation raised: poll again, and cancel once more unless that settles it. */
  method AfterFailedCancel(m: Market, id: nat, qty: nat, pre: nat, transient: bool)
    returns (v: Verdict, ghost seen: Answer<Outcome>, ghost again: Option<Answer<Outcome>>)
    requires m.Valid() && id < |m.tickets| && m.tickets[id].qty == qty >= 1 && m.base == pre
    modifies m`tickets, m`raced, m`troubled, m`misses, m`asks, m`looks, m`cancels
    ensures m.Valid() && AllEvolve(old(m.tickets), m.tickets) && (old(m.raced) ==> m.raced)
    ensures old(m.troubled) ==> m.troubled
    ensures v.Fill? ==> 0 < v.qty <= Fills(m.tickets)
    ensures v.Fill? && !m.raced && old(Newest(m, id)) ==> v.qty == m.tickets[id].filled
    ensures v.NoFill? && !m.raced ==> Dead(m.tickets[id])
    ensures old(m.looks) < m.looks <= old(m.looks) + 8 + 8 * (m.cancels - old(m.cancels))
    ensures v.Throws? ==> m.misses > old(m.misses)
    ensures old(m.cancels) <= m.cancels <= old(m.cancels) + if transient then 1 else 0
    ensures v == Aftermath(seen, again, transient, qty)
    ensures again.Some? ==> m.cancels == old(m.cancels) + 1
    ensures v.GiveUp? && transient ==> m.cancels == old(m.cancels) + 1
  {
    hide Tells, OnlyLastAlive, AllDead, Fills, AllEvolve, Dead;
    ghost var t0 := m.tickets;
    ghost var newest := Newest(m, id);
    var follow, missed := LookAgain(m, id, qty, pre);
    seen, again := follow, None;
    SameOrder(t0, m.tickets, id);
    if newest {
      NewestStays(t0, m, id);
    }
    if follow.Errs? {
      return Throws, seen, again;
    }
    var filled, unfilled := follow.value.filled, follow.value.unfilled;
    if filled >= qty {
      unfilled := 0;
    } else if filled <= 0 && follow.value.state.ClosedUnfilled? {
      unfilled := 0;
    } else if !transient {
      return GiveUp, seen, again;
    }
    if unfilled > 0 {
      ghost var t1 := m.tickets;
      var second := TryCancel(m, id, qty, pre, follow.value, missed);
      EvolveTwice(t0, t1, m.tickets);
      SameOrder(t0, m.tickets, id);
      if newest {
        NewestStays(t0, m, id);
      }
      if second.NotCancelled? {
        ghost var t2 := m.tickets;
        var last, _ := LookAgain(m, id, qty, pre);
        again := Some(last);
        EvolveTwice(t0, t2, m.tickets);
        SameOrder(t0, m.tickets, id);
        if newest {
          NewestStays(t0, m, id);
        }
        if last.Errs? {
          return Throws, seen, again;
        }
        filled := last.value.filled;
        if filled < qty && last.value.unfilled > 0 {
          return GiveUp, seen, again;
        }
      }
    }
    return if filled <= 0 then NoFill else Fill(filled), seen, again;
  }

  /** From the order number to a verdict: watch, cancel what is not filled, look again when the
      cancellation fails, and cancel once more. Balance queries that raise do no harm here. When
      every request is answered and the cancellation works, the verdict is what the order filled. */
  method SettleOrder(m: Market, id: nat, qty: nat, pre: nat) returns (v: Verdict)
    requires m.Valid() && id < |m.tickets| && m.tickets[id].qty == qty >= 1 && m.base == pre
    modifies m`tickets, m`raced, m`troubled, m`misses, m`asks, m`looks, m`cancels
    ensures m.Valid() && AllEvolve(old(m.tickets), m.tickets) && (old(m.raced) ==> m.raced)
    ensures old(m.troubled) ==> m.troubled
    ensures v.Fill? ==> 0 < v.qty <= Fills(m.tickets)
    ensures v.Fill? && !m.raced && old(Newest(m, id)) ==> v.qty == m.tickets[id].filled
    ensures v.NoFill? && !m.raced ==> Dead(m.tickets[id])
    ensures v.GiveUp? || v.Throws? ==> m.troubled
    ensures m.cancels == old(m.cancels) ==> m.looks <= old(m.looks) + 6
    ensures m.cancels > old(m.cancels) && !old(m.tickets)[id].open ==> m.looks > old(m.looks) + 6
    ensures v.Throws? ==> m.misses > old(m.misses)
    ensures m.cancels <= old(m.cancels) + 2 && (v.GiveUp? ==> m.cancels > old(m.cancels))
  {
    hide OnlyLastAlive, AllDead, Fills;
    ghost var t0 := m.tickets;
    ghost var newest := Newest(m, id);
    var seen, missed := WaitForOutcome(m, id, qty, pre, 6);
    if newest {
      NewestStays(t0, m, id);
    }
    if seen.Errs? {
      return Throws;
    }
    SeenIsFilled(m, id, qty, pre, seen.value, missed);
    var filled, unfilled := seen.value.filled, seen.value.unfilled;
    if unfilled > 0 {
      ghost var t1 := m.tickets;
      var first := TryCancel(m, id, qty, pre, seen.value, missed);
      EvolveTwice(t0, t1, m.tickets);
      if newest {
        NewestStays(t0, m, id);
      }
      if first.Cancelled? {
        unfilled := 0;
      } else {
        var after, _, _ := AfterFailedCancel(m, id, qty, pre, first.transient);
        EvolveTwice(t0, t1, m.tickets);
        return after;
      }
    }
    return if filled <= 0 then NoFill else Fill(filled);
  }

  /** Nothing has been bought and nothing is open: what the client checks before another POST
      when it has no order number to watch. */
  method SafeToRepeat(m: Market) returns (open: Answer<bool>)
    requires m.Valid()
    requires m.Clean() ==> Fills(m.tickets) == 0
    modifies m`tickets, m`raced, m`troubled, m`misses
    ensures m.Valid() && AllEvolve(old(m.tickets), m.tickets) && (old(m.raced) ==> m.raced)
    ensures open == Says(false) && m.Clean() ==> AllDead(m.tickets)
    ensures open.Says? ==> (open.value <==> exists i :: 0 <= i < |m.tickets| && m.tickets[i].open)
    ensures m.misses == old(m.misses) + if open.Errs? then 1 else 0
    ensures old(m.troubled) ==> m.troubled
  {
    NoFills(m.tickets);
    open := m.HasUnfilled();
  }

  /** The decision taken after one POST. */
  datatype Turn = Return(r: BuyResult) | Again

  /** The decision after a POST that raised, or that came back without an order number. */
  function UnknownTurn(inferred: nat, mayRepeat: bool, open: Answer<bool>, raised: bool): Turn {
    if inferred > 0 then Return(Bought(inferred))
    else if !mayRepeat then Return(if raised then Raised else Refused)
    else
      match open
      case Errs => Return(if raised then Refused else Raised)
      case Says(true) => Return(Refused)
      case Says(false) => Again
  }

  /** Number of balance queries answered before the first that raises. */
  function Answered(answers: seq<Answer<nat>>): (n: nat)
    ensures n <= |answers|
  {
    if answers == [] || answers[0].Errs? then 0 else 1 + Answered(answers[1..])
  }

  lemma {:induction false} NothingInferredExactly(answers: seq<Answer<nat>>, fills: seq<nat>, qty: nat, base: nat)
    requires qty >= 1 && |fills| == |answers|
    requires forall i :: 0 <= i < |answers| && answers[i].Says? ==> answers[i].value == base + fills[i]
    ensures Inferred(answers, qty, base) == 0 <==> forall i :: 0 <= i < Answered(answers) ==> fills[i] == 0
  {
    if answers != [] && answers[0].Says? {
      assert forall i :: 0 <= i < |answers| - 1 ==> answers[1..][i] == answers[i + 1] && fills[1..][i] == fills[i + 1];
      NothingInferredExactly(answers[1..], fills[1..], qty, base);
      assert forall i :: 0 < i < Answered(answers) ==> fills[i] == fills[1..][i - 1];
    }
  }

  /** What has filled before the polling is missed exactly when the first query raises. */
  lemma EarlyFillMissedExactly(answers: seq<Answer<nat>>, fills: seq<nat>, qty: nat, base: nat, first: nat, last: nat)
    requires qty >= 1 && first > 0 && Observed(answers, fills, base, first, last)
    ensures Inferred(answers, qty, base) == 0 <==> answers[0].Errs?
  {
    NothingInferredExactly(answers, fills, qty, base);
  }

  /** Nothing is inferred exactly when no answer before the first failure came after a fill; for an
      order filled before the polling, exactly when the first query raises. */
  lemma InferenceTells(answers: seq<Answer<nat>>, fills: seq<nat>, qty: nat, base: nat, first: nat, last: nat)
    requires qty >= 1 && Observed(answers, fills, base, first, last)
    ensures |answers| == |fills| > 0
    ensures Inferred(answers, qty, base) == 0 <==> forall i :: 0 <= i < Answered(answers) ==> fills[i] == 0
    ensures first > 0 ==> (Inferred(answers, qty, base) == 0 <==> answers[0].Errs?)
  {
    NothingInferredExactly(answers, fills, qty, base);
    if first > 0 {
      EarlyFillMissedExactly(answers, fills, qty, base, first, last);
    }
  }

  lemma ObservedLater(answers: seq<Answer<nat>>, fills: seq<nat>, base: nat, first: nat, last: nat, later: nat)
    requires Observed(answers, fills, base, first, last) && last <= later
    ensures Observed(answers, fills, base, first, later)
  {
  }

  lemma DeadIsClosed(ts: seq<Ticket>)
    ensures AllDead(ts) ==> Fills(ts) == 0 && !exists i :: 0 <= i < |ts| && ts[i].open
  {
    NoFills(ts);
  }

  /** What follows such a POST: infer from the balance, and repeat only if the open-order check
      finds nothing. With nothing open, the order is repeated exactly when no query that was
      answered before the first one that raised came after a fill; so one that had filled before
      the polling is bought again exactly when the first balance query raises. */
  method AfterUnknownPost(m: Market, qty: nat, pre: nat, mayRepeat: bool, raised: bool)
    returns (t: Turn, ghost answers: seq<Answer<nat>>, ghost fills: seq<nat>, ghost open: Answer<bool>)
    requires m.Valid() && m.base == pre && qty >= 1
    modifies m`tickets, m`raced, m`blind, m`troubled, m`misses, m`asks
    ensures m.Valid() && AllEvolve(old(m.tickets), m.tickets)
    ensures (old(m.raced) ==> m.raced) && (old(m.blind) ==> m.blind)
    ensures Observed(answers, fills, m.base, Fills(old(m.tickets)), Fills(m.tickets)) && PolledEnough(answers, pre, 6)
    ensures t == UnknownTurn(Inferred(answers, qty, pre), mayRepeat, open, raised)
    ensures t.Again?
        <==> mayRepeat && open == Says(false) && forall i :: 0 <= i < Answered(answers) ==> fills[i] == 0
    ensures var posted := old(m.tickets);
      posted != [] && posted[|posted| - 1].filled > 0 && mayRepeat && open == Says(false) ==>
        (t.Again? <==> answers[0].Errs?)
    ensures t.Again? ==> m.Clean() ==> AllDead(m.tickets)
    ensures t.Return? && t.r.Bought? ==> 0 < t.r.qty <= Fills(m.tickets)
    ensures t.Return? && t.r.Bought? && Fills(m.tickets) <= qty ==> t.r.qty == Fills(m.tickets)
    ensures mayRepeat && m.misses == old(m.misses) && AllDead(m.tickets) ==> t.Again?
    ensures old(m.troubled) ==> m.troubled
  {
    hide Observed, Inferred, Answered, AllDead, AllEvolve, PolledEnough;
    ghost var t0 := m.tickets;
    var inferred: nat;
    inferred, answers, fills := InferFill(m, qty, pre, 6);
    m.blind := m.blind || Missed(answers);
    open := Errs;
    InferenceTells(answers, fills, qty, pre, Fills(t0), Fills(m.tickets));
    if t0 != [] {
      FillOf(t0, |t0| - 1);
    }
    if inferred > 0 {
      DeadIsClosed(m.tickets);
      return Return(Bought(inferred)), answers, fills, open;
    }
    if mayRepeat {
      ghost var t1 := m.tickets;
      var found := SafeToRepeat(m);
      open := found;
      EvolveTwice(t0, t1, m.tickets);
      FillsLater(t1, m.tickets);
      ObservedLater(answers, fills, m.base, Fills(t0), Fills(t1), Fills(m.tickets));
      DeadIsClosed(m.tickets);
      if found.Errs? {
        return Return(if raised then Refused else Raised), answers, fills, open;
      }
      if found.value {
        return Return(Refused), answers, fills, open;
      }
      return Again, answers, fills, open;
    }
    return Return(if raised then Raised else Refused), answers, fills, open;
  }

  lemma LastDeadAllDead(ts: seq<Ticket>)
    requires ts != [] && OnlyLastAlive(ts)
    ensures Dead(ts[|ts| - 1]) ==> AllDead(ts)
  {
  }

  /** After a POST over dead orders, no more can have filled than it asked for. */
  lemma FillsWithin(posted: seq<Ticket>, ts: seq<Ticket>, before: seq<Ticket>, dead: bool, qty: nat)
    requires AllEvolve(posted, ts) && (dead ==> AllDead(before))
    requires posted == before
          || (|posted| == |before| + 1 && before <= posted && posted[|posted| - 1].qty == qty)
    ensures dead ==> Fills(ts) <= qty
  {
    if dead {
      if posted == before {
        DeadStays(posted, ts);
        NoFills(ts);
      } else {
        assert posted[..|posted| - 1] == before;
        DeadStays(posted, ts);
        FillsOfLast(ts);
        assert Evolves(posted[|posted| - 1], ts[|ts| - 1]);
      }
    }
  }

  /** How the call buys: the amount in ticks, the configured markup, and the currency. */
  datatype Budget = Budget(amount: real, markup: real, currency: Currency)

  /** A quote that leads to a POST: there is a price, and the limit is not refused for being low. */
  predicate Usable(quote: real, b: Budget) {
    quote > 0.0 && !TooLow(BufferedBuyLimit(quote, b.markup, b.currency), b.currency)
  }

  function RequestFor(quote: real, b: Budget): Request {
    var limit := BufferedBuyLimit(quote, b.markup, b.currency);
    Request(SharesFor(b.amount, limit, b.currency), limit)
  }

  /** The orders sent for a series of quotes. */
  function RequestsFor(quotes: seq<real>, b: Budget): seq<Request> {
    if quotes == [] then []
    else
      var last := quotes[|quotes| - 1];
      RequestsFor(quotes[..|quotes| - 1], b) + if Usable(last, b) then [RequestFor(last, b)] else []
  }

  lemma NextRequest(quotes: seq<real>, quote: real, b: Budget)
    ensures RequestsFor(quotes + [quote], b)
         == RequestsFor(quotes, b) + if Usable(quote, b) then [RequestFor(quote, b)] else []
  {
    assert (quotes + [quote])[..|quotes|] == quotes;
  }

  /** An order for more than one share costs no more than the amount even at its limit, one share
      more would cost more, and the limit is the marked-up quote to the nearest tick. */
  predicate Affordable(q: Request, quote: real, b: Budget) {
    && q.qty >= 1 && (q.qty > 1 ==> q.qty as real * q.limit as real <= b.amount)
    && b.amount < (q.qty + 1) as real * q.limit as real
    && quote - 0.5 <= q.limit as real
    && ((b.currency == USD && q.limit == 1)
        || Marked(quote, b.markup) - 0.5 <= q.limit as real <= Marked(quote, b.markup) + 0.5)
  }

  lemma RequestIsAffordable(quote: real, b: Budget)
    requires Usable(quote, b)
    ensures Affordable(RequestFor(quote, b), quote, b)
  {
    var limit := BufferedBuyLimit(quote, b.markup, b.currency);
    BuyLimitExactly(quote, b.markup, b.currency, limit);
    BuyLimitExactly(quote, b.markup, b.currency, limit + 1);
    hide Marked, BufferedBuyLimit, SharesFor;
    SharesAreAffordable(b.amount, limit, b.currency);
  }

  predicate AffordableAtOne(q: Request, quotes: seq<real>, b: Budget) {
    exists k :: 0 <= k < |quotes| && Affordable(q, quotes[k], b)
  }

  /** Every order sent is affordable at one of the quotes, and each usable quote led to one. */
  lemma {:induction false} RequestsAreAffordable(quotes: seq<real>, b: Budget)
    ensures var rs := RequestsFor(quotes, b);
      && (forall i :: 0 <= i < |rs| ==> AffordableAtOne(rs[i], quotes, b))
      && |rs| <= |quotes|
      && (|rs| == |quotes| <==> forall k :: 0 <= k < |quotes| ==> Usable(quotes[k], b))
  {
    hide Affordable, Usable, RequestFor;
    if quotes != [] {
      var n := |quotes| - 1;
      var rs, earlier := RequestsFor(quotes, b), RequestsFor(quotes[..n], b);
      RequestsAreAffordable(quotes[..n], b);
      assert forall k :: 0 <= k < n ==> quotes[..n][k] == quotes[k];
      forall i | 0 <= i < |rs| ensures AffordableAtOne(rs[i], quotes, b) {
        if i < |earlier| {
          var k :| 0 <= k < n && Affordable(earlier[i], quotes[..n][k], b);
          assert Affordable(rs[i], quotes[k], b);
        } else {
          RequestIsAffordable(quotes[n], b);
          assert Affordable(rs[i], quotes[n], b);
        }
      }
    }
  }

  /** What an attempt leaves behind when every request was answered and no fill slipped in: a fill
      reported as it is, or a dead order, which the last attempt reports as a failure. */
  ghost predicate Smooth(m: Market, t: Turn, last: bool)
    reads m
  {
    match t
    case Again => !last && AllDead(m.tickets)
    case Return(Bought(qty)) => qty == Fills(m.tickets)
    case Return(Refused) => last && AllDead(m.tickets)
    case Return(Raised) => false
  }

  lemma NoneButDead(ts: seq<Ticket>)
    ensures AllDead(ts) ==> OnlyLastAlive(ts)
  {
  }

  lemma NewestOverDead(before: seq<Ticket>, ts: seq<Ticket>)
    requires |ts| == |before| + 1 && before <= ts
    ensures AllDead(before) ==> OnlyLastAlive(ts)
  {
    assert ts[..|ts| - 1] == before;
  }

  /** The attempt from its order number on. */
  method FollowOrder(m: Market, id: nat, qty: nat, pre: nat, last: bool) returns (t: Turn)
    requires m.Valid() && id + 1 == |m.tickets| && m.tickets[id].qty == qty >= 1 && m.base == pre
    requires m.Clean() ==> OnlyLastAlive(m.tickets)
    modifies m`tickets, m`raced, m`troubled, m`misses, m`asks, m`looks, m`cancels
    ensures m.Valid() && AllEvolve(old(m.tickets), m.tickets) && (old(m.raced) ==> m.raced)
    ensures old(m.troubled) ==> m.troubled
    ensures m.Clean() ==> OnlyLastAlive(m.tickets)
    ensures t.Again? ==> !last && (m.Clean() ==> AllDead(m.tickets))
    ensures t.Return? && t.r.Bought? ==> 0 < t.r.qty <= Fills(m.tickets)
    ensures t.Return? && t.r.Bought? && m.Clean() ==> t.r.qty == Fills(m.tickets)
    ensures t == Return(Raised) ==> m.misses > old(m.misses)
    ensures t == Return(Refused) ==> last || m.cancels > old(m.cancels)
    ensures !m.troubled && m.Clean() ==> Smooth(m, t, last)
  {
    ghost var posted := m.tickets;
    var v := SettleOrder(m, id, qty, pre);
    DeadStays(posted, m.tickets);
    if m.Clean() {
      FillsOfLast(m.tickets);
    }
    match v {
      case Fill(q) => return Return(Bought(q));
      case GiveUp => return Return(Refused);
      case Throws => return Return(Raised);
      case NoFill =>
        if m.Clean() {
          LastDeadAllDead(m.tickets);
        }
        return if last then Return(Refused) else Again;
    }
  }

  /** The attempt from a POST on that raised or brought no order number. */
  method FollowUnknown(m: Market, ghost before: seq<Ticket>, qty: nat, pre: nat, mayRepeat: bool, raised: bool)
    returns (t: Turn)
    requires m.Valid() && m.base == pre && qty >= 1
    requires m.Clean() ==> AllDead(before)
    requires m.tickets == before
          || (|m.tickets| == |before| + 1 && before <= m.tickets && m.tickets[|m.tickets| - 1].qty == qty)
    modifies m`tickets, m`raced, m`blind, m`troubled, m`misses, m`asks
    ensures m.Valid() && (old(m.raced) ==> m.raced) && (old(m.blind) ==> m.blind)
    ensures mayRepeat && m.misses == old(m.misses) && AllDead(m.tickets) ==> t.Again?
    ensures old(m.troubled) ==> m.troubled
    ensures m.Clean() ==> OnlyLastAlive(m.tickets)
    ensures t.Again? ==> mayRepeat && (m.Clean() ==> AllDead(m.tickets))
    ensures t.Return? && t.r.Bought? ==> 0 < t.r.qty <= Fills(m.tickets)
    ensures t.Return? && t.r.Bought? && m.Clean() ==> t.r.qty == Fills(m.tickets)
  {
    ghost var posted, clean := m.tickets, m.Clean();
    assert clean ==> OnlyLastAlive(posted) by {
      if |posted| > |before| {
        assert posted[..|posted| - 1] == before;
      }
    }
    var next, _, _, _ := AfterUnknownPost(m, qty, pre, mayRepeat, raised);
    DeadStays(posted, m.tickets);
    FillsWithin(posted, m.tickets, before, clean, qty);
    return next;
  }

  /** One attempt: quote, POST, and what follows it. */
  method Attempt(m: Market, b: Budget, pre: nat, last: bool)
    returns (t: Turn, ghost quote: real, ghost reply: Reply)
    requires m.Valid() && m.base == pre && (m.Clean() ==> AllDead(m.tickets))
    modifies m
    ensures m.Valid() && m.quotes == old(m.quotes) + [quote]
    ensures m.asked == old(m.asked) + if Usable(quote, b) then [RequestFor(quote, b)] else []
    ensures m.Clean() ==> OnlyLastAlive(m.tickets)
    ensures t.Again? ==> !last && (m.Clean() ==> AllDead(m.tickets))
    ensures t.Return? && t.r.Bought? ==> 0 < t.r.qty <= Fills(m.tickets)
    ensures t.Return? && t.r.Bought? && m.Clean() ==> t.r.qty == Fills(m.tickets)
    ensures t.Again? ==> reply.Placed? || reply.retryable
    ensures quote > 0.0 && !last && reply.PostError? && reply.retryable && m.misses == old(m.misses) ==>
      AllDead(m.tickets) ==> t.Again?
    ensures quote <= 0.0 ==> t == Return(Raised) && m.tickets == old(m.tickets)
    ensures (old(m.troubled) ==> m.troubled) && (old(m.raced) ==> m.raced) && (old(m.blind) ==> m.blind)
    ensures !m.troubled && m.Clean() && Usable(quote, b) ==>
      Smooth(m, t, last) && |m.tickets| == |old(m.tickets)| + 1
  {
    hide AllDead, OnlyLastAlive, Fills, BufferedBuyLimit, SharesFor, TooLow, Smooth;
    ghost var before := m.tickets;
    var price := m.Quote();
    quote := price;
    if price <= 0.0 {
      NoneButDead(before);
      reply := PostError(false);
      return Return(Raised), quote, reply;
    }
    var limit := BufferedBuyLimit(price, b.markup, b.currency);
    var qty := SharesFor(b.amount, limit, b.currency);
    var got;
    if TooLow(limit, b.currency) {
      var retryable: bool := *;
      got := PostError(retryable);
    } else {
      got := m.Post(qty, limit);
    }
    reply := got;
    if got.Placed? && got.id.Some? {
      NewestOverDead(before, m.tickets);
      t := FollowOrder(m, got.id.value, qty, pre, last);
    } else {
      t := FollowUnknown(m, before, qty, pre, !last && (got.Placed? || got.retryable), got.PostError?);
    }
  }

  lemma NothingYet(b: Budget)
    ensures OnlyLastAlive([]) && RequestsFor([], b) == [] && Fills([]) == 0
  {
  }

  lemma NewestFills(ts: seq<Ticket>)
    requires ts != [] && OnlyLastAlive(ts) && TicketOk(ts[|ts| - 1])
    ensures Fills(ts) <= ts[|ts| - 1].qty
  {
    FillsOfLast(ts);
  }

  /** place_buy_by_amount. Against a broker that answers truthfully, when the balance queries after
      a POST of unknown fate are answered and no fill slips in between a look and the decision
      based on it: all orders of the call but the newest are closed without a fill, so its total
      fill is within one attempt's quantity, and a reported fill is that fill. In every case the
      number of POSTs is bounded, each is the most the amount pays for at its quote, and a reported
      fill is backed by shares. When moreover every quote is usable and every request answered, the
      call buys what one of its orders filled, or has tried as often as it may and left only orders
      closed without a fill. */
  method PlaceBuyByAmount(m: Market, b: Budget, retries: int) returns (r: BuyResult)
    requires m.Valid() && m.Clean() && m.tickets == [] && m.posts == 0 && m.quotes == []
    modifies m
    ensures m.Valid()
    ensures m.posts <= |m.quotes| <= 1 + (if retries > 0 then retries else 0)
    ensures m.asked == RequestsFor(m.quotes, b)
    ensures m.Clean() ==> OnlyLastAlive(m.tickets)
    ensures m.Clean() && m.tickets != [] ==> Fills(m.tickets) <= m.tickets[|m.tickets| - 1].qty
    ensures r.Bought? ==> 0 < r.qty <= Fills(m.tickets)
    ensures r.Bought? && m.Clean() ==> r.qty == Fills(m.tickets)
    ensures (m.quotes == [] ==> r.Raised?) && (!m.troubled ==> |m.quotes| >= 1)
    ensures !m.troubled && m.Clean() && m.posts == |m.quotes| ==>
      || (r.Bought? && r.qty == Fills(m.tickets))
      || (r.Refused? && AllDead(m.tickets) && |m.tickets| == m.posts == 1 + if retries > 0 then retries else 0)
  {
    hide OnlyLastAlive, Usable, RequestFor, RequestsFor, Fills;
    NothingYet(b);
    var held := m.Balance();
    if held.Errs? {
      return Raised;
    }
    var pre := held.value;
    var attempts := 1 + (if retries > 0 then retries else 0);
    var k := 0;
    while k < attempts
      invariant 0 <= k <= attempts && m.Valid() && |m.quotes| == k && m.base == pre
      invariant m.asked == RequestsFor(m.quotes, b) && m.posts <= k
      invariant m.Clean() ==> AllDead(m.tickets)
      invariant !m.troubled && m.Clean() && m.posts == k ==> |m.tickets| == k
      invariant k == attempts ==> attempts == 0
    {
      ghost var quotes := m.quotes;
      var t, quote, _ := Attempt(m, b, pre, k == attempts - 1);
      NextRequest(quotes, quote, b);
      if t.Return? {
        if m.Clean() && m.tickets != [] {
          NewestFills(m.tickets);
        }
        return t.r;
      }
      k := k + 1;
    }
    return Refused;
  }
}
