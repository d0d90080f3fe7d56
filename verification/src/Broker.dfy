/** The broker as seen by one buy call: orders it accepted, fills that happen on their own, and
    answers that are truthful but may fail to arrive. */
module Broker {
  import opened Orders

  /** An order the broker accepted during the call. */
  datatype Ticket = Ticket(qty: nat, filled: nat, open: bool)

  predicate TicketOk(t: Ticket) {
    t.filled <= t.qty && (t.open ==> t.filled < t.qty)
  }

  /** An open order fills further or closes; a closed one never changes. */
  predicate Evolves(t: Ticket, t': Ticket) {
    t'.qty == t.qty && t'.filled >= t.filled && TicketOk(t') && (!t.open ==> t' == t)
  }

  predicate AllEvolve(ts: seq<Ticket>, ts': seq<Ticket>) {
    |ts'| == |ts| && forall i :: 0 <= i < |ts| ==> Evolves(ts[i], ts'[i])
  }

  /** Closed without a fill. */
  predicate Dead(t: Ticket) {
    !t.open && t.filled == 0
  }

  predicate AllDead(ts: seq<Ticket>) {
    forall i :: 0 <= i < |ts| ==> Dead(ts[i])
  }

  function Fills(ts: seq<Ticket>): nat {
    if ts == [] then 0 else ts[0].filled + Fills(ts[1..])
  }

  lemma {:induction false} FillsGrow(ts: seq<Ticket>, ts': seq<Ticket>)
    requires AllEvolve(ts, ts')
    ensures Fills(ts) <= Fills(ts')
    ensures Fills(ts) == Fills(ts') ==> forall i :: 0 <= i < |ts| ==> ts[i].filled == ts'[i].filled
  {
    if ts != [] {
      assert forall i :: 0 <= i < |ts| - 1 ==> ts[1..][i] == ts[i + 1] && ts'[1..][i] == ts'[i + 1];
      FillsGrow(ts[1..], ts'[1..]);
    }
  }

  lemma {:induction false} FillOf(ts: seq<Ticket>, i: nat)
    requires i < |ts|
    ensures ts[i].filled <= Fills(ts)
  {
    if i > 0 {
      FillOf(ts[1..], i - 1);
    }
  }

  lemma {:induction false} NoFills(ts: seq<Ticket>)
    ensures Fills(ts) == 0 <==> forall i :: 0 <= i < |ts| ==> ts[i].filled == 0
  {
    if ts != [] {
      NoFills(ts[1..]);
      assert forall i :: 0 < i < |ts| ==> ts[i] == ts[1..][i - 1];
    }
  }

  lemma {:induction false} FillsOfLast(ts: seq<Ticket>)
    requires ts != [] && AllDead(ts[..|ts| - 1])
    ensures Fills(ts) == ts[|ts| - 1].filled
  {
    if |ts| > 1 {
      assert ts[0] == ts[..|ts| - 1][0];
      assert ts[1..][..|ts| - 2] == ts[..|ts| - 1][1..];
      FillsOfLast(ts[1..]);
    }
  }

  /** What a POST of an order can come back with. */
  datatype Reply = Placed(id: Option<nat>) | PostError(retryable: bool)

  /** A row of the order history or of the unfilled list; `finished` when its status text is one
      of the final ones the client knows. */
  datatype Execution = Execution(filled: nat, unfilled: nat, finished: bool)

  /** The row tells the truth about the order. */
  predicate Reports(e: Execution, t: Ticket) {
    e.filled == t.filled && (if t.open then e.unfilled == t.qty - t.filled && !e.finished else e.unfilled == 0)
  }

  /** An order as the client sends it, the limit in ticks. */
  datatype Request = Request(qty: nat, limit: int)

  datatype Answer<T> = Says(value: T) | Errs

  /** The error texts of a failed cancellation after which the client tries once more. */
  datatype CancelReply = Cancelled | NotCancelled(transient: bool)

  class Market {
    const base: nat           // shares held before the call
    var tickets: seq<Ticket>
    var posts: nat
    ghost var quotes: seq<real>     // the prices it quoted
    ghost var asked: seq<Request>   // the orders it was sent
    ghost var asks: nat             // balance queries
    ghost var looks: nat            // looks at the order history
    ghost var misses: nat           // queries that were not answered
    ghost var cancels: nat          // cancellations it was sent
    ghost var troubled: bool        // a request was not answered, or an order could not be cancelled
    ghost var raced: bool     // a fill came between the client's last look and its decision
    ghost var blind: bool     // a balance query failed while the client asked after a POST of unknown fate

    ghost predicate Valid()
      reads this
    {
      (forall i :: 0 <= i < |tickets| ==> TicketOk(tickets[i])) && |asked| == posts
    }

    ghost predicate Clean()
      reads this
    {
      !raced && !blind
    }

    constructor (held: nat)
      ensures Valid() && Clean() && !troubled && base == held && tickets == [] && posts == 0 && quotes == []
    {
      base, tickets, posts, raced, blind := held, [], 0, false, false;
      quotes, asked, asks, looks, misses, cancels, troubled := [], [], 0, 0, 0, 0, false;
    }

    /** Time passes at the exchange. */
    method Advance()
      requires Valid()
      modifies `tickets
      ensures Valid() && AllEvolve(old(tickets), tickets)
    {
      for i := 0 to |tickets|
        invariant Valid() && AllEvolve(old(tickets), tickets)
        invariant forall j :: i <= j < |tickets| ==> tickets[j] == old(tickets)[j]
      {
        if tickets[i].open {
          var t := tickets[i];
          var more: int := *;
          var done: bool := *;
          var filled := if 0 < more <= t.qty - t.filled then t.filled + more else t.filled;
          tickets := tickets[i := Ticket(t.qty, filled, !done && filled < t.qty)];
        }
      }
    }

    /** Time passes where the client is not looking: a fill is a race. */
    method AdvanceUnseen()
      requires Valid()
      modifies `tickets, `raced
      ensures Valid() && AllEvolve(old(tickets), tickets) && (old(raced) ==> raced)
      ensures !raced ==> forall i :: 0 <= i < |tickets| ==> tickets[i].filled == old(tickets)[i].filled
    {
      ghost var before := Fills(tickets);
      Advance();
      FillsGrow(old(tickets), tickets);
      if Fills(tickets) != before {
        raced := true;
      }
    }

    /** get_quote_snapshot: zero when the answer holds no price. */
    method Quote() returns (price: real)
      requires Valid()
      modifies `quotes
      ensures Valid() && quotes == old(quotes) + [price]
    {
      price := *;
      quotes := quotes + [price];
    }

    /** get_symbol_balance: the whole holding. */
    method Balance() returns (r: Answer<nat>)
      requires Valid()
      modifies `tickets, `troubled, `misses, `asks
      ensures Valid() && AllEvolve(old(tickets), tickets) && troubled == (old(troubled) || r.Errs?)
      ensures asks == old(asks) + 1
      ensures misses == old(misses) + if r.Errs? then 1 else 0
      ensures r.Says? ==> r.value == base + Fills(tickets)
    {
      asks := asks + 1;
      Advance();
      var fails: bool := *;
      if fails {
        misses, troubled := misses + 1, true;
        return Errs;
      }
      r := Says(base + Fills(tickets));
    }

    /** place_market_order: the POST may fail before or after the order is accepted, and the
        order number may be missing. A second order may only go out over dead ones. */
    method Post(qty: nat, limit: int) returns (r: Reply)
      requires Valid() && qty >= 1
      requires Clean() ==> AllDead(tickets)
      modifies `tickets, `posts, `asked, `troubled
      ensures Valid() && posts == old(posts) + 1 && asked == old(asked) + [Request(qty, limit)]
      ensures troubled == (old(troubled) || !r.Placed? || r.id.None?)
      ensures tickets == old(tickets)
           || (|tickets| == |old(tickets)| + 1 && old(tickets) <= tickets && tickets[|tickets| - 1].qty == qty)
      ensures r.Placed? && r.id.Some? ==> r.id.value == |old(tickets)| < |tickets|
    {
      posts, asked := posts + 1, asked + [Request(qty, limit)];
      var accepted: bool := *;
      if !accepted {
        var retryable: bool := *;
        troubled := true;
        return PostError(retryable);
      }
      var atOnce: int := *;
      var closed: bool := *;
      var filled := if 0 < atOnce <= qty then atOnce else 0;
      tickets := tickets + [Ticket(qty, filled, !closed && filled < qty)];
      var outcome: int := *;
      if outcome == 0 {
        var retryable: bool := *;
        troubled := true;
        return PostError(retryable);
      } else if outcome == 1 {
        troubled := true;
        return Placed(None);
      }
      r := Placed(Some(|tickets| - 1));
    }

    /** find_order_history_row: the row may not be there yet. */
    method History(id: nat) returns (r: Answer<Option<Execution>>)
      requires Valid() && id < |tickets|
      modifies `tickets, `troubled, `misses, `looks
      ensures Valid() && AllEvolve(old(tickets), tickets) && troubled == (old(troubled) || r.Errs?)
      ensures looks == old(looks) + 1
      ensures misses == old(misses) + if r.Errs? then 1 else 0
      ensures r.Says? && r.value.Some? ==> Reports(r.value.value, tickets[id])
    {
      looks := looks + 1;
      Advance();
      var fails: bool := *;
      var late: bool := *;
      var known: bool := *;
      if fails {
        misses, troubled := misses + 1, true;
        return Errs;
      } else if late {
        return Says(None);
      }
      var t := tickets[id];
      r := Says(Some(Execution(t.filled, if t.open then t.qty - t.filled else 0, !t.open && known)));
    }

    /** find_unfilled_order: there exactly while the order is open. */
    method Unfilled(id: nat) returns (r: Answer<Option<Execution>>)
      requires Valid() && id < |tickets|
      modifies `tickets, `troubled, `misses
      ensures Valid() && AllEvolve(old(tickets), tickets) && troubled == (old(troubled) || r.Errs?)
      ensures misses == old(misses) + if r.Errs? then 1 else 0
      ensures r.Says? ==> (r.value.Some? <==> tickets[id].open)
      ensures r.Says? && r.value.Some? ==> Reports(r.value.value, tickets[id])
    {
      Advance();
      var fails: bool := *;
      if fails {
        misses, troubled := misses + 1, true;
        return Errs;
      }
      var t := tickets[id];
      r := Says(if t.open then Some(Execution(t.filled, t.qty - t.filled, false)) else None);
    }

    /** has_unfilled_symbol_order, asked after the balance was looked at. */
    method HasUnfilled() returns (r: Answer<bool>)
      requires Valid()
      modifies `tickets, `raced, `troubled, `misses
      ensures troubled == (old(troubled) || r.Errs?) && misses == old(misses) + if r.Errs? then 1 else 0
      ensures Valid() && AllEvolve(old(tickets), tickets) && (old(raced) ==> raced)
      ensures !raced ==> forall i :: 0 <= i < |tickets| ==> tickets[i].filled == old(tickets)[i].filled
      ensures r.Says? ==> (r.value <==> exists i :: 0 <= i < |tickets| && tickets[i].open)
    {
      AdvanceUnseen();
      var fails: bool := *;
      if fails {
        misses, troubled := misses + 1, true;
        return Errs;
      }
      r := Says(exists i :: 0 <= i < |tickets| && tickets[i].open);
    }

    /** cancel_order: only an open order can be cancelled; success closes it, and an error leaves
        open whether it did. */
    method Cancel(id: nat) returns (r: CancelReply)
      requires Valid() && id < |tickets|
      modifies `tickets, `raced, `troubled, `cancels
      ensures troubled == (old(troubled) || r.NotCancelled?) && cancels == old(cancels) + 1
      ensures Valid() && AllEvolve(old(tickets), tickets) && (old(raced) ==> raced)
      ensures !raced ==> forall i :: 0 <= i < |tickets| ==> tickets[i].filled == old(tickets)[i].filled
      ensures r.Cancelled? ==> old(tickets)[id].open && !tickets[id].open
    {
      cancels := cancels + 1;
      AdvanceUnseen();
      var applied: bool := *;
      if applied && tickets[id].open {
        tickets := tickets[id := tickets[id].(open := false)];
        var reported: bool := *;
        if reported {
          return Cancelled;
        }
      }
      var transient: bool := *;
      troubled := true;
      r := NotCancelled(transient);
    }
  }
}
