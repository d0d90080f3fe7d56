/** Retry counts stay within the limit in every run, and quiet runs drain the active lists. */
module Retries {
  import opened Orders
  import opened OrderQueue
  import opened Protocol
  import opened Lives

  predicate Fits(p: Payload, maxRetries: int) {
    p.Json? ==> p.order.retryCount <= maxRetries
  }

  predicate AllFit(list: seq<Payload>, maxRetries: int) {
    forall i :: 0 <= i < |list| ==> Fits(list[i], maxRetries)
  }

  /** Retried no more often than allowed; the webhook sends zero. */
  function Allowed(maxRetries: int): Order -> bool {
    (o: Order) => o.retryCount <= maxRetries
  }

  lemma FitsWhereAllowed(list: seq<Payload>, maxRetries: int)
    requires AllHold(list, Allowed(maxRetries))
    ensures AllFit(list, maxRetries)
  {
    forall i | 0 <= i < |list| ensures Fits(list[i], maxRetries) {
      assert Holds(list[i], Allowed(maxRetries));
    }
  }

  /** No list and no process ever holds an order that was retried more often than allowed, over
      every interleaving with any failures. */
  lemma RetriesStayWithinLimit(s: State, steps: seq<Step>, maxRetries: int)
    requires Everywhere(s, Allowed(maxRetries))
    requires forall i :: 0 <= i < |steps| ==> Enters(steps[i], Allowed(maxRetries))
    ensures var s' := Run(s, steps, maxRetries);
      && Everywhere(s', Allowed(maxRetries))
      && AllFit(s'.q.sell, maxRetries) && AllFit(s'.q.buy, maxRetries)
      && AllFit(s'.q.pending, maxRetries) && AllFit(s'.q.processing, maxRetries)
  {
    RunKeeps(s, steps, maxRetries, Allowed(maxRetries));
    var q := Run(s, steps, maxRetries).q;
    FitsWhereAllowed(q.sell, maxRetries);
    FitsWhereAllowed(q.buy, maxRetries);
    FitsWhereAllowed(q.pending, maxRetries);
    FitsWhereAllowed(q.processing, maxRetries);
  }

  // ----- draining

  /** Attempts a payload still has a right to; an undecodable one takes one turn to discard. */
  function Attempts(p: Payload, maxRetries: int): nat
    requires Fits(p, maxRetries)
  {
    if p.Json? then maxRetries + 1 - p.order.retryCount else 1
  }

  function Work(list: seq<Payload>, maxRetries: int): nat
    requires AllFit(list, maxRetries)
  {
    if list == [] then 0 else Attempts(list[0], maxRetries) + Work(list[1..], maxRetries)
  }

  lemma {:induction false} WorkPopped(list: seq<Payload>, maxRetries: int)
    requires AllFit(list, maxRetries) && list != []
    ensures var n := |list| - 1;
      Work(list, maxRetries) == Work(list[..n], maxRetries) + Attempts(list[n], maxRetries)
    ensures Attempts(list[|list| - 1], maxRetries) >= 1
  {
    var n := |list| - 1;
    if n > 0 {
      WorkPopped(list[1..], maxRetries);
      assert list[1..][..n - 1] == list[..n][1..];
    } else {
      assert list[1..] == [];
    }
  }

  /** One turn of worker_loop in which Redis and the notifications work: dequeue, process with
      or without an exception, push the retry if one is left, acknowledge. */
  function Iterate(q: Queues, raises: bool, maxRetries: int): Queues {
    var (q', h) := Dequeued(q);
    if h.None? then q'
    else
      var raw := h.value.raw;
      var retry := raises && raw.Json? && raw.order.retryCount < maxRetries;
      var pushed := if retry then LpushSide(q', raw.order.action, Json(Retried(raw.order))) else q';
      pushed.(processing := Lrem(pushed.processing, raw))
  }

  /** The protocol steps of one dequeue_order call. */
  function Fetch(s: State, maxRetries: int): State {
    var s1 := DiscardStep(WorkerStep(s, TakeSell(true), maxRetries));
    DiscardStep(WorkerStep(s1, TakeBuy(true), maxRetries))
  }

  /** The protocol steps after it, when no further command fails. */
  function Settle(s: State, raises: bool, maxRetries: int): State {
    var s1 := if raises then RetryPushStep(RaiseStep(s, maxRetries), maxRetries) else s;
    AckStep(ConcludeStep(s1), true)
  }

  function WithoutLastSell(q: Queues): Queues {
    if q.sell == [] then q else q.(sell := q.sell[..|q.sell| - 1])
  }

  lemma FetchSell(s: State, maxRetries: int)
    requires s.worker.Idle?
    ensures DiscardStep(WorkerStep(s, TakeSell(true), maxRetries))
         == if s.q.sell != [] && s.q.sell[|s.q.sell| - 1].Json?
            then s.(q := Taken(s.q, Sell), worker := Working(Held(s.q.sell[|s.q.sell| - 1], Sell), false))
            else s.(q := WithoutLastSell(s.q), worker := TryBuy)
  {
    assert WorkerStep(s, TakeSell(true), maxRetries) == TakeStep(s, Sell, true);
  }

  lemma FetchBuy(s: State, maxRetries: int)
    requires s.worker.TryBuy?
    ensures DiscardStep(WorkerStep(s, TakeBuy(true), maxRetries))
         == if s.q.buy == [] then s.(worker := Idle)
            else if s.q.buy[|s.q.buy| - 1].Json?
            then s.(q := Taken(s.q, Buy), worker := Working(Held(s.q.buy[|s.q.buy| - 1], Buy), false))
            else s.(q := s.q.(buy := s.q.buy[..|s.q.buy| - 1]), worker := Idle)
  {
    assert WorkerStep(s, TakeBuy(true), maxRetries) == TakeStep(s, Buy, true);
  }

  lemma FetchIsDequeue(s: State, maxRetries: int)
    requires s.worker.Idle?
    ensures var (q', h) := Dequeued(s.q);
      Fetch(s, maxRetries) == s.(q := q', worker := if h.Some? then Working(h.value, false) else Idle)
  {
    FetchSell(s, maxRetries);
    var s1 := DiscardStep(WorkerStep(s, TakeSell(true), maxRetries));
    if s1.worker.TryBuy? {
      FetchBuy(s1, maxRetries);
    } else {
      assert DiscardStep(WorkerStep(s1, TakeBuy(true), maxRetries)) == s1;
    }
  }

  lemma SettleIsRest(s: State, raises: bool, maxRetries: int)
    requires s.worker.Working? && !s.worker.copied && s.worker.h.raw.Json? && s.worker.h.raw in s.q.processing
    ensures var raw := s.worker.h.raw;
      var retry := raises && raw.order.retryCount < maxRetries;
      var pushed := if retry then LpushSide(s.q, raw.order.action, Json(Retried(raw.order))) else s.q;
      Settle(s, raises, maxRetries).q == pushed.(processing := Lrem(pushed.processing, raw))
      && Settle(s, raises, maxRetries).worker == Idle
  {
  }

  function FetchSteps(): seq<Step> {
    [TakeSell(true), Discard, TakeBuy(true), Discard]
  }

  function SettleSteps(raises: bool): seq<Step> {
    (if raises then [Raise, RetryPush] else []) + [Conclude, Ack(true)]
  }

  /** One of the two attempts of dequeue_order, with the discarding of what does not decode. */
  function Attempt(s: State, x: Step, maxRetries: int): State {
    DiscardStep(WorkerStep(s, x, maxRetries))
  }

  lemma ApplyDiscard(s: State, maxRetries: int)
    ensures Apply(s, Discard, maxRetries) == DiscardStep(s)
  {
    hide DiscardStep;
  }

  lemma AttemptSteps(s: State, x: Step, maxRetries: int)
    requires x.TakeSell? || x.TakeBuy?
    ensures Apply(Apply(s, x, maxRetries), Discard, maxRetries) == Attempt(s, x, maxRetries)
  {
    hide Apply, WorkerStep, DiscardStep;
    ApplyWorker(s, x, maxRetries);
    ApplyDiscard(WorkerStep(s, x, maxRetries), maxRetries);
  }

  lemma AttemptRuns(s: State, x: Step, rest: seq<Step>, maxRetries: int)
    requires x.TakeSell? || x.TakeBuy?
    ensures Run(s, [x, Discard] + rest, maxRetries) == Run(Attempt(s, x, maxRetries), rest, maxRetries)
  {
    hide Apply, Attempt;
    AttemptSteps(s, x, maxRetries);
    RunMore(s, x, Discard, rest, maxRetries);
  }

  lemma FetchRuns(s: State, rest: seq<Step>, maxRetries: int)
    ensures Run(s, FetchSteps() + rest, maxRetries) == Run(Fetch(s, maxRetries), rest, maxRetries)
  {
    var later := [TakeBuy(true), Discard] + rest;
    assert FetchSteps() + rest == [TakeSell(true), Discard] + later;
    AttemptRuns(s, TakeSell(true), later, maxRetries);
    AttemptRuns(Attempt(s, TakeSell(true), maxRetries), TakeBuy(true), rest, maxRetries);
  }

  lemma ApplyHandler(s: State, maxRetries: int)
    ensures Apply(s, Raise, maxRetries) == RaiseStep(s, maxRetries)
    ensures Apply(s, RetryPush, maxRetries) == RetryPushStep(s, maxRetries)
    ensures Apply(s, Conclude, maxRetries) == ConcludeStep(s)
  {
    hide RaiseStep, RetryPushStep, ConcludeStep;
  }

  lemma SettleRuns(s: State, raises: bool, maxRetries: int)
    ensures Run(s, SettleSteps(raises), maxRetries) == Settle(s, raises, maxRetries)
  {
    hide Apply, RaiseStep, RetryPushStep, ConcludeStep, AckStep;
    var s1 := s;
    if raises {
      RunMore(s, Raise, RetryPush, [Conclude, Ack(true)], maxRetries);
      ApplyHandler(s, maxRetries);
      s1 := RaiseStep(s, maxRetries);
      ApplyHandler(s1, maxRetries);
      s1 := RetryPushStep(s1, maxRetries);
    } else {
      assert SettleSteps(raises) == [Conclude, Ack(true)];
    }
    RunTwo(s1, Conclude, Ack(true), maxRetries);
    ApplyHandler(s1, maxRetries);
    ApplyAck(ConcludeStep(s1), true, maxRetries);
  }

  lemma DequeuedIsHeld(q: Queues)
    ensures var (q', h) := Dequeued(q);
      h.Some? ==> h.value.raw.Json? && q'.processing == [h.value.raw] + q.processing && h.value.raw in q'.processing
  {
  }

  lemma SettledIterates(s: State, raises: bool, maxRetries: int)
    requires s.worker.Idle?
    ensures Settle(Fetch(s, maxRetries), raises, maxRetries).q == Iterate(s.q, raises, maxRetries)
    ensures Settle(Fetch(s, maxRetries), raises, maxRetries).worker == Idle
  {
    FetchIsDequeue(s, maxRetries);
    if Dequeued(s.q).1.Some? {
      DequeuedIsHeld(s.q);
      SettleIsRest(Fetch(s, maxRetries), raises, maxRetries);
    }
  }

  /** The iteration is a run of the protocol, step by step, from Idle back to Idle. */
  lemma IterationIsARun(s: State, raises: bool, maxRetries: int)
    requires s.worker.Idle?
    ensures var s' := Run(s, FetchSteps() + SettleSteps(raises), maxRetries);
      s'.q == Iterate(s.q, raises, maxRetries) && s'.worker == Idle
  {
    hide Apply, Fetch, Settle, Iterate;
    FetchRuns(s, SettleSteps(raises), maxRetries);
    SettleRuns(Fetch(s, maxRetries), raises, maxRetries);
    SettledIterates(s, raises, maxRetries);
  }

  function ActiveWork(q: Queues, maxRetries: int): nat
    requires AllFit(q.sell, maxRetries) && AllFit(q.buy, maxRetries)
  {
    Work(q.sell, maxRetries) + Work(q.buy, maxRetries)
  }

  lemma WorkPushed(p: Payload, list: seq<Payload>, maxRetries: int)
    requires Fits(p, maxRetries) && AllFit(list, maxRetries)
    ensures AllFit([p] + list, maxRetries)
    ensures Work([p] + list, maxRetries) == Attempts(p, maxRetries) + Work(list, maxRetries)
  {
  }

  lemma TakenWork(q: Queues, maxRetries: int)
    requires AllFit(q.sell, maxRetries) && AllFit(q.buy, maxRetries)
    ensures var (q', h) := Dequeued(q);
      && AllFit(q'.sell, maxRetries) && AllFit(q'.buy, maxRetries)
      && (h.Some? ==>
            && h.value.raw.Json? && Fits(h.value.raw, maxRetries)
            && ActiveWork(q', maxRetries) + Attempts(h.value.raw, maxRetries) <= ActiveWork(q, maxRetries))
      && (h.None? ==>
            && q'.processing == q.processing
            && (ActiveWork(q', maxRetries) < ActiveWork(q, maxRetries) || q.sell == [] == q.buy))
  {
    if q.sell != [] {
      WorkPopped(q.sell, maxRetries);
    }
    if q.buy != [] {
      WorkPopped(q.buy, maxRetries);
    }
  }

  /** Each iteration on nonempty active lists uses up at least one attempt. */
  lemma IterationDecreases(q: Queues, raises: bool, maxRetries: int)
    requires AllFit(q.sell, maxRetries) && AllFit(q.buy, maxRetries)
    ensures var q' := Iterate(q, raises, maxRetries);
      && AllFit(q'.sell, maxRetries) && AllFit(q'.buy, maxRetries)
      && (ActiveWork(q', maxRetries) < ActiveWork(q, maxRetries) || q.sell == [] == q.buy)
      && (q.sell == [] == q.buy ==> q' == q)
  {
    TakenWork(q, maxRetries);
    var (q', h) := Dequeued(q);
    if h.Some? && raises && h.value.raw.order.retryCount < maxRetries {
      var p := Json(Retried(h.value.raw.order));
      WorkPushed(p, q'.sell, maxRetries);
      WorkPushed(p, q'.buy, maxRetries);
    }
  }

  function Iterations(q: Queues, raises: seq<bool>, maxRetries: int): Queues
    decreases |raises|
  {
    if raises == [] then q else Iterations(Iterate(q, raises[0], maxRetries), raises[1..], maxRetries)
  }

  /** Left alone, the worker empties both active lists within as many iterations as the queued
      orders have attempts left, whichever of them raise. */
  lemma {:induction false} QuietRunDrains(q: Queues, raises: seq<bool>, maxRetries: int)
    requires AllFit(q.sell, maxRetries) && AllFit(q.buy, maxRetries)
    requires |raises| >= ActiveWork(q, maxRetries)
    ensures var q' := Iterations(q, raises, maxRetries); q'.sell == [] == q'.buy
    decreases |raises|
  {
    if raises == [] {
      if q.sell != [] { WorkPopped(q.sell, maxRetries); }
      if q.buy != [] { WorkPopped(q.buy, maxRetries); }
    } else {
      IterationDecreases(q, raises[0], maxRetries);
      QuietRunDrains(Iterate(q, raises[0], maxRetries), raises[1..], maxRetries);
    }
  }
}
