/** Left alone with a set of open markets, the worker works off everything that is queued. */
module Drains {
  import opened Orders
  import opened Tickers
  import opened OrderQueue
  import opened Protocol
  import opened Sweeps
  import opened Retries

  // ----- idle sweeps

  /** The lists after one sweep. */
  function Swept(q: Queues, f: Payload -> Fate): Queues {
    Filtered(Rotation(q, [], 0, 0), q.pending, [], f).q
  }

  /** The lists after the sweeps of an idle turn, one for each open market. */
  function SweptAll(q: Queues, fs: seq<Payload -> Fate>): Queues
    decreases |fs|
  {
    if fs == [] then q else SweptAll(Swept(q, fs[0]), fs[1..])
  }

  /** The pending entries that none of the sweeps takes out. */
  function Kept(list: seq<Payload>, fs: seq<Payload -> Fate>): seq<Payload>
    decreases |fs|
  {
    if fs == [] then list else Kept(Fated(list, fs[0], Keep), fs[1..])
  }

  predicate KeptByAll(p: Payload, fs: seq<Payload -> Fate>) {
    forall k :: 0 <= k < |fs| ==> fs[k](p) == Keep
  }

  /** No sweep has anything to do. */
  predicate Settled(list: seq<Payload>, fs: seq<Payload -> Fate>) {
    forall i :: 0 <= i < |list| ==> KeptByAll(list[i], fs)
  }

  lemma {:induction false} FatedAll(list: seq<Payload>, f: Payload -> Fate)
    requires forall i :: 0 <= i < |list| ==> f(list[i]) == Keep
    ensures Fated(list, f, Keep) == list && Fated(list, f, ToSell) == [] == Fated(list, f, ToBuy)
  {
    if list != [] {
      FatedAll(list[1..], f);
    }
  }

  lemma {:induction false} KeptIs(list: seq<Payload>, fs: seq<Payload -> Fate>)
    ensures forall p :: p in Kept(list, fs) <==> p in list && KeptByAll(p, fs)
    decreases |fs|
  {
    if fs != [] {
      FatedIs(list, fs[0], Keep);
      KeptIs(Fated(list, fs[0], Keep), fs[1..]);
      assert fs == [fs[0]] + fs[1..];
      forall p ensures KeptByAll(p, fs) <==> fs[0](p) == Keep && KeptByAll(p, fs[1..]) {
        assert forall k :: 0 < k < |fs| ==> fs[k] == fs[1..][k - 1];
      }
    }
  }

  lemma KeptIsSettled(list: seq<Payload>, fs: seq<Payload -> Fate>)
    ensures Settled(Kept(list, fs), fs)
  {
    KeptIs(list, fs);
  }

  lemma {:induction false} SweptAllKeeps(q: Queues, fs: seq<Payload -> Fate>)
    ensures SweptAll(q, fs).pending == Kept(q.pending, fs)
    decreases |fs|
  {
    if fs != [] {
      assert Fated(q.pending, fs[0], Keep) + [] == Fated(q.pending, fs[0], Keep);
      SweptAllKeeps(Swept(q, fs[0]), fs[1..]);
    }
  }

  lemma {:induction false} SettledStays(q: Queues, fs: seq<Payload -> Fate>)
    requires Settled(q.pending, fs)
    ensures SweptAll(q, fs) == q && Kept(q.pending, fs) == q.pending
    decreases |fs|
  {
    if fs != [] {
      forall i | 0 <= i < |q.pending| ensures fs[0](q.pending[i]) == Keep && KeptByAll(q.pending[i], fs[1..]) {
        assert KeptByAll(q.pending[i], fs);
      }
      FatedAll(q.pending, fs[0]);
      assert Swept(q, fs[0]) == q;
      SettledStays(q, fs[1..]);
    }
  }

  // ----- the attempts that everything queued has left

  predicate QueuedFit(q: Queues, maxRetries: int) {
    AllFit(q.sell, maxRetries) && AllFit(q.buy, maxRetries) && AllFit(q.pending, maxRetries)
  }

  function QueuedWork(q: Queues, maxRetries: int): nat
    requires QueuedFit(q, maxRetries)
  {
    ActiveWork(q, maxRetries) + Work(q.pending, maxRetries)
  }

  lemma {:induction false} WorkPlus(a: seq<Payload>, b: seq<Payload>, maxRetries: int)
    requires AllFit(a, maxRetries) && AllFit(b, maxRetries)
    ensures AllFit(a + b, maxRetries) && Work(a + b, maxRetries) == Work(a, maxRetries) + Work(b, maxRetries)
  {
    if a == [] {
      assert a + b == b;
    } else {
      WorkPlus(a[1..], b, maxRetries);
      assert (a + b)[1..] == a[1..] + b;
    }
  }

  lemma FatedFits(list: seq<Payload>, f: Payload -> Fate, fate: Fate, maxRetries: int)
    requires AllFit(list, maxRetries)
    ensures AllFit(Fated(list, f, fate), maxRetries)
  {
    FatedIs(list, f, fate);
    forall i | 0 <= i < |Fated(list, f, fate)| ensures Fits(Fated(list, f, fate)[i], maxRetries) {
      assert Fated(list, f, fate)[i] in list;
    }
  }

  lemma {:induction false} FatedWork(list: seq<Payload>, f: Payload -> Fate, maxRetries: int)
    requires AllFit(list, maxRetries)
    ensures AllFit(Fated(list, f, Keep), maxRetries)
    ensures AllFit(Fated(list, f, ToSell), maxRetries) && AllFit(Fated(list, f, ToBuy), maxRetries)
    ensures Work(Fated(list, f, Keep), maxRetries) + Work(Fated(list, f, ToSell), maxRetries)
              + Work(Fated(list, f, ToBuy), maxRetries) <= Work(list, maxRetries)
  {
    if list != [] {
      FatedWork(list[1..], f, maxRetries);
      var p := list[0];
      assert Fits(p, maxRetries);
      FatedFits(list[1..], f, f(p), maxRetries);
      WorkPushed(p, Fated(list[1..], f, f(p)), maxRetries);
    }
  }

  lemma SweptWork(q: Queues, f: Payload -> Fate, maxRetries: int)
    requires QueuedFit(q, maxRetries)
    ensures QueuedFit(Swept(q, f), maxRetries)
    ensures QueuedWork(Swept(q, f), maxRetries) <= QueuedWork(q, maxRetries)
  {
    FatedWork(q.pending, f, maxRetries);
    WorkPlus(Fated(q.pending, f, ToSell), q.sell, maxRetries);
    WorkPlus(Fated(q.pending, f, ToBuy), q.buy, maxRetries);
    assert Fated(q.pending, f, Keep) + [] == Fated(q.pending, f, Keep);
  }

  lemma {:induction false} SweptAllWork(q: Queues, fs: seq<Payload -> Fate>, maxRetries: int)
    requires QueuedFit(q, maxRetries)
    ensures QueuedFit(SweptAll(q, fs), maxRetries)
    ensures QueuedWork(SweptAll(q, fs), maxRetries) <= QueuedWork(q, maxRetries)
    decreases |fs|
  {
    if fs != [] {
      SweptWork(q, fs[0], maxRetries);
      SweptAllWork(Swept(q, fs[0]), fs[1..], maxRetries);
    }
  }

  // ----- turns of the worker loop

  /** One turn of worker_loop that does not merely wait: an order if there is one, else the sweeps. */
  function LoopTurn(q: Queues, raises: bool, fs: seq<Payload -> Fate>, maxRetries: int): Queues {
    var q' := Iterate(q, raises, maxRetries);
    if Dequeued(q).1.None? then SweptAll(q', fs) else q'
  }

  lemma IteratePending(q: Queues, raises: bool, maxRetries: int)
    ensures Iterate(q, raises, maxRetries).pending == q.pending
  {
  }

  /** Turns the worker needs at most. */
  function Needed(q: Queues, fs: seq<Payload -> Fate>, maxRetries: int): nat
    requires QueuedFit(q, maxRetries)
  {
    if Settled(q.pending, fs) then ActiveWork(q, maxRetries) else QueuedWork(q, maxRetries) + 1
  }

  lemma NothingNeeded(q: Queues, fs: seq<Payload -> Fate>, maxRetries: int)
    requires QueuedFit(q, maxRetries) && Needed(q, fs, maxRetries) == 0
    ensures q.sell == [] == q.buy && Settled(q.pending, fs)
  {
    if q.sell != [] {
      WorkPopped(q.sell, maxRetries);
    }
    if q.buy != [] {
      WorkPopped(q.buy, maxRetries);
    }
  }

  lemma NoneWhenEmpty(q: Queues)
    ensures q.sell == [] == q.buy ==> Dequeued(q).1.None?
  {
  }

  lemma TurnHelps(q: Queues, raises: bool, fs: seq<Payload -> Fate>, maxRetries: int)
    requires QueuedFit(q, maxRetries)
    ensures var q' := LoopTurn(q, raises, fs, maxRetries);
      && QueuedFit(q', maxRetries)
      && (Needed(q, fs, maxRetries) > 0 ==> Needed(q', fs, maxRetries) < Needed(q, fs, maxRetries))
      && (Needed(q, fs, maxRetries) == 0 ==> q' == q)
      && Kept(q'.pending, fs) == Kept(q.pending, fs)
  {
    hide Iterate, Dequeued, Settled, Kept, SweptAll;
    IterationDecreases(q, raises, maxRetries);
    IteratePending(q, raises, maxRetries);
    var q1 := Iterate(q, raises, maxRetries);
    SweptAllWork(q1, fs, maxRetries);
    SweptAllKeeps(q1, fs);
    KeptIsSettled(q.pending, fs);
    SettledStays(q1.(pending := Kept(q.pending, fs)), fs);
    if Settled(q.pending, fs) {
      SettledStays(q1, fs);
    }
    if Needed(q, fs, maxRetries) == 0 {
      NothingNeeded(q, fs, maxRetries);
    }
    NoneWhenEmpty(q);
  }

  function LoopTurns(q: Queues, raises: seq<bool>, fs: seq<Payload -> Fate>, maxRetries: int): Queues
    decreases |raises|
  {
    if raises == [] then q else LoopTurns(LoopTurn(q, raises[0], fs, maxRetries), raises[1..], fs, maxRetries)
  }

  lemma {:induction false} TurnsSettle(q: Queues, raises: seq<bool>, fs: seq<Payload -> Fate>, maxRetries: int)
    requires QueuedFit(q, maxRetries) && |raises| >= Needed(q, fs, maxRetries)
    ensures var q' := LoopTurns(q, raises, fs, maxRetries);
      q'.sell == [] == q'.buy && q'.pending == Kept(q.pending, fs)
    decreases |raises|
  {
    if raises == [] {
      NothingNeeded(q, fs, maxRetries);
      SettledStays(q, fs);
    } else {
      TurnHelps(q, raises[0], fs, maxRetries);
      TurnsSettle(LoopTurn(q, raises[0], fs, maxRetries), raises[1..], fs, maxRetries);
    }
  }

  // ----- open markets

  /** The flushes of an idle turn, at one reading of the clock. */
  function Flushes(markets: seq<Market>, now: int, ttl: int): (fs: seq<Payload -> Fate>)
    ensures |fs| == |markets|
    ensures forall k :: 0 <= k < |fs| ==> fs[k] == Classifier(Flush(markets[k].Name()), now, ttl)
  {
    if markets == [] then [] else [Classifier(Flush(markets[0].Name()), now, ttl)] + Flushes(markets[1..], now, ttl)
  }

  /** What waits for a market that is not open. */
  predicate Waits(p: Payload, markets: seq<Market>, now: int, ttl: int) {
    p.Json? && !Expired(p.order, now, ttl) && MarketOf(p.order.ticker) !in markets
  }

  lemma KeptExactlyWaits(p: Payload, markets: seq<Market>, now: int, ttl: int)
    requires markets != []
    ensures KeptByAll(p, Flushes(markets, now, ttl)) <==> Waits(p, markets, now, ttl)
  {
    var fs := Flushes(markets, now, ttl);
    forall k | 0 <= k < |fs|
      ensures fs[k](p) == Keep
        <==> p.Json? && !Expired(p.order, now, ttl) && MarketOf(p.order.ticker) != markets[k]
    {
      if p.Json? {
        FlushSortsExactly(p.order, markets[k], now, ttl);
      }
    }
    if KeptByAll(p, fs) {
      assert fs[0](p) == Keep;
    }
  }

  /** With a market open and no failures, re-pendings or new orders, the worker empties both active
      lists and leaves exactly the orders pending that wait for another market, in their order,
      within one turn more than everything queued has attempts left, whichever orders raise. */
  lemma QuietRunSettles(q: Queues, raises: seq<bool>, markets: seq<Market>, now: int, ttl: int, maxRetries: int)
    requires QueuedFit(q, maxRetries) && markets != [] && |raises| > QueuedWork(q, maxRetries)
    ensures var q' := LoopTurns(q, raises, Flushes(markets, now, ttl), maxRetries);
      && q'.sell == [] == q'.buy
      && q'.pending == Kept(q.pending, Flushes(markets, now, ttl))
      && forall p :: p in q'.pending <==> p in q.pending && Waits(p, markets, now, ttl)
  {
    var fs := Flushes(markets, now, ttl);
    TurnsSettle(q, raises, fs, maxRetries);
    KeptIs(q.pending, fs);
    forall p ensures KeptByAll(p, fs) <==> Waits(p, markets, now, ttl) {
      KeptExactlyWaits(p, markets, now, ttl);
    }
  }

  // ----- a turn of the loop is a run of the protocol

  lemma {:induction false} RunPlus(s: State, a: seq<Step>, b: seq<Step>, maxRetries: int)
    ensures Run(s, a + b, maxRetries) == Run(Run(s, a, maxRetries), b, maxRetries)
    decreases |a|
  {
    hide Apply;
    if a == [] {
      assert a + b == b;
    } else {
      assert (a + b)[1..] == a[1..] + b;
      RunPlus(Apply(s, a[0], maxRetries), a[1..], b, maxRetries);
    }
  }

  lemma EndSweepRuns(s: State, i: nat, sweep: Sweep, now: int, ttl: int, maxRetries: int)
    requires s.worker == Sweeping(i) && Turning(s, i, sweep, now, ttl, 0)
    ensures Run(s, [EndSweep], maxRetries) == s.(worker := Idle)
  {
    assert [EndSweep][1..] == [];
    assert Apply(s, EndSweep, maxRetries) == EndSweepStep(s);
  }

  lemma OwnSweepRuns(s: State, sweep: Sweep, now: int, ttl: int, maxRetries: int) returns (steps: seq<Step>)
    requires s.worker.Idle?
    ensures var s' := Run(s, steps, maxRetries);
      s'.q == Swept(s.q, Classifier(sweep, now, ttl)) && s'.worker.Idle?
  {
    hide Apply, Run, Filtered;
    var turns := [BeginSweep(sweep, now, ttl)] + SweepSteps(|s.sweepers|, |s.q.pending|);
    SweepIsARun(s, true, sweep, now, ttl, maxRetries);
    EndSweepRuns(Run(s, turns, maxRetries), |s.sweepers|, sweep, now, ttl, maxRetries);
    RunPlus(s, turns, [EndSweep], maxRetries);
    steps := turns + [EndSweep];
  }

  lemma {:induction false} OwnSweepsRun(s: State, markets: seq<Market>, now: int, ttl: int, maxRetries: int)
    returns (steps: seq<Step>)
    requires s.worker.Idle?
    ensures var s' := Run(s, steps, maxRetries);
      s'.q == SweptAll(s.q, Flushes(markets, now, ttl)) && s'.worker.Idle?
    decreases |markets|
  {
    hide Apply, Swept;
    if markets == [] {
      steps := [];
    } else {
      var first := OwnSweepRuns(s, Flush(markets[0].Name()), now, ttl, maxRetries);
      var s1 := Run(s, first, maxRetries);
      var rest := OwnSweepsRun(s1, markets[1..], now, ttl, maxRetries);
      RunPlus(s, first, rest, maxRetries);
      steps := first + rest;
      assert Flushes(markets, now, ttl)[1..] == Flushes(markets[1..], now, ttl);
    }
  }

  lemma LoopTurnIsARun(s: State, raises: bool, markets: seq<Market>, now: int, ttl: int, maxRetries: int)
    returns (steps: seq<Step>)
    requires s.worker.Idle?
    ensures var s' := Run(s, steps, maxRetries);
      s'.q == LoopTurn(s.q, raises, Flushes(markets, now, ttl), maxRetries) && s'.worker.Idle?
  {
    hide Apply, Run, Iterate, Dequeued, SweptAll, Flushes;
    steps := FetchSteps() + SettleSteps(raises);
    IterationIsARun(s, raises, maxRetries);
    if Dequeued(s.q).1.None? {
      var sweeps := OwnSweepsRun(Run(s, steps, maxRetries), markets, now, ttl, maxRetries);
      RunPlus(s, steps, sweeps, maxRetries);
      steps := steps + sweeps;
    }
  }

  /** The turns of the loop, with the idle worker's flushes of the open markets, are a run of the
      protocol's atomic steps from idle to idle: so there is one that settles everything queued. */
  lemma {:induction false} LoopTurnsAreARun(s: State, raises: seq<bool>, markets: seq<Market>, now: int, ttl: int,
                                           maxRetries: int)
    returns (steps: seq<Step>)
    requires s.worker.Idle?
    ensures var s' := Run(s, steps, maxRetries);
      s'.q == LoopTurns(s.q, raises, Flushes(markets, now, ttl), maxRetries) && s'.worker.Idle?
    decreases |raises|
  {
    hide Apply, LoopTurn, Flushes;
    if raises == [] {
      steps := [];
    } else {
      var first := LoopTurnIsARun(s, raises[0], markets, now, ttl, maxRetries);
      var rest := LoopTurnsAreARun(Run(s, first, maxRetries), raises[1..], markets, now, ttl, maxRetries);
      RunPlus(s, first, rest, maxRetries);
      steps := first + rest;
    }
  }
}
