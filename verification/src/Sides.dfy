/** What the place of an order says about it, in every interleaving: sells stay apart from buys, and
    what is pending bears the time it was put there. */
module Sides {
  import opened Orders
  import opened OrderQueue
  import opened Protocol

  /** Every order that decodes is a SELL. */
  predicate OnlySells(list: seq<Payload>) {
    forall i :: 0 <= i < |list| && list[i].Json? ==> list[i].order.action == Sell
  }

  predicate NoSells(list: seq<Payload>) {
    forall i :: 0 <= i < |list| && list[i].Json? ==> list[i].order.action != Sell
  }

  /** Every order that decodes bears the time of its entry. */
  predicate Stamped(list: seq<Payload>) {
    forall i :: 0 <= i < |list| && list[i].Json? ==> list[i].order.queued.At?
  }

  /** So does every order that a sweep has popped. */
  predicate HandsStamped(ss: seq<Sweeper>) {
    forall i :: 0 <= i < |ss| ==> Stamped(InHand(ss[i].hand))
  }

  /** An order in the worker's hands is remembered with the list of its own side. */
  predicate FromItsSide(w: Worker) {
    HasOrder(w) || w.Acking? ==>
      && (w.h.source == Sell ==> OnlySells([w.h.raw]))
      && (w.h.source == Buy ==> NoSells([w.h.raw]))
  }

  /** The sell list holds SELLs, the buy list none, and what is pending is stamped. */
  predicate Apart(s: State) {
    && OnlySells(s.q.sell) && NoSells(s.q.buy) && FromItsSide(s.worker)
    && Stamped(s.q.pending) && HandsStamped(s.sweepers)
  }

  lemma PushApart(s: State, side: Side, p: Payload)
    requires Apart(s) && (side == Sell ==> OnlySells([p])) && (side == Buy ==> NoSells([p]))
    ensures Apart(Push(s, side, p))
  {
    assert side == Sell && p.Json? ==> [p][0].order.action == Sell;
    assert side == Buy && p.Json? ==> [p][0].order.action != Sell;
  }

  lemma PlaceApart(s: State, i: nat)
    requires Apart(s) && i < |s.sweepers| && s.sweepers[i].hand.Some?
    ensures Apart(PlaceStep(s, i))
  {
    var m := s.sweepers[i];
    var s' := s.(sweepers := s.sweepers[i := m.(hand := None)]);
    assert Stamped(InHand(m.hand)) && InHand(m.hand)[0] == m.hand.value;
    match FateOf(m.hand.value, m.sweep, m.now, m.ttl)
    case ToSell => PushApart(s', Sell, m.hand.value);
    case ToBuy => PushApart(s', Buy, m.hand.value);
    case _ =>
  }

  lemma PopApart(s: State, i: nat)
    requires Apart(s) && i < |s.sweepers|
    ensures Apart(PopStep(s, i)) && Apart(CutShort(s, i)) && Apart(AbortStep(s, i))
  {
  }

  lemma PendingApart(s: State, o: Order, now: int)
    requires Apart(s)
    ensures Apart(PushPending(s, Json(EnterPending(o, now))))
  {
  }

  lemma OutsideApart(s: State, step: Step, maxRetries: int)
    requires Apart(s) && Outside(step)
    ensures Apart(Apply(s, step, maxRetries))
  {
    match step
    case Accept(o) => PushApart(s, o.action, Json(o));
    case AcceptPending(o, now) => PendingApart(s, o, now);
    case Pop(i) => if i < |s.sweepers| { PopApart(s, i); }
    case Abort(i) => if i < |s.sweepers| { PopApart(s, i); }
    case Place(i) => if i < |s.sweepers| && s.sweepers[i].hand.Some? { PlaceApart(s, i); }
    case _ =>
  }

  lemma RecoverApart(s: State)
    requires Apart(s)
    ensures Apart(RecoverPopStep(s)) && Apart(RecoverPushStep(s))
  {
    if s.worker.Recovering? && s.worker.hand.Some? && s.worker.hand.value.Json? {
      var p := s.worker.hand.value;
      PushApart(s.(worker := Recovering(None)), p.order.action, p);
    }
  }

  lemma TakeApart(s: State, source: Side, replied: bool)
    requires Apart(s) && source != Other
    ensures Apart(TakeStep(s, source, replied))
  {
  }

  lemma MovesApart(s: State, step: Step, maxRetries: int)
    requires Apart(s) && Moves(step)
    ensures Apart(WorkerStep(s, step, maxRetries))
  {
    match step
    case RecoverPop => RecoverApart(s);
    case RecoverPush => RecoverApart(s);
    case TakeSell(replied) => TakeApart(s, Sell, replied);
    case TakeBuy(replied) => TakeApart(s, Buy, replied);
    case Repend(now) => if s.worker.Working? && s.worker.h.raw.Json? { PendingApart(s, s.worker.h.raw.order, now); }
    case _ =>
  }

  lemma RetryPushApart(s: State, maxRetries: int)
    requires Apart(s)
    ensures Apart(RetryPushStep(s, maxRetries))
  {
    if s.worker.Failing? && s.worker.h.raw.Json? {
      var o := s.worker.h.raw.order;
      PushApart(s, o.action, Json(Retried(o)));
    }
  }

  lemma RestoreApart(s: State, raised: bool, applied: bool)
    requires Apart(s)
    ensures Apart(RestoreStep(s, raised, applied))
  {
    if s.worker.Restoring? {
      var h := s.worker.h;
      PushApart(s.(q := s.q.(processing := Lrem(s.q.processing, h.raw))), h.source, h.raw);
    }
  }

  lemma CrashApart(s: State)
    requires Apart(s)
    ensures Apart(CrashStep(s)) && Apart(ShutdownStep(s))
  {
    if s.worker.Sweeping? && s.worker.i < |s.sweepers| {
      PopApart(s, s.worker.i);
    }
  }

  lemma DecisionsApart(s: State, step: Step, maxRetries: int)
    requires Apart(s) && Decides(step)
    ensures Apart(WorkerStep(s, step, maxRetries))
  {
    match step
    case RetryPush => RetryPushApart(s, maxRetries);
    case Restore(raised, applied) => RestoreApart(s, raised, applied);
    case _ =>
  }

  lemma AckApart(s: State, applied: bool)
    requires Apart(s)
    ensures Apart(AckStep(s, applied)) && Apart(if s.worker.Down? then s.(worker := Recovering(None)) else s)
  {
  }

  lemma WorkerApart(s: State, step: Step, maxRetries: int)
    requires Apart(s) && !Outside(step)
    ensures Apart(WorkerStep(s, step, maxRetries))
  {
    hide Apart;
    if Moves(step) {
      MovesApart(s, step, maxRetries);
    } else if Decides(step) {
      DecisionsApart(s, step, maxRetries);
    } else {
      CrashApart(s);
      AckApart(s, step.Ack? && step.applied);
    }
  }

  lemma StepApart(s: State, step: Step, maxRetries: int)
    requires Apart(s)
    ensures Apart(Apply(s, step, maxRetries))
  {
    hide Apart;
    ApplyWorker(s, step, maxRetries);
    if Outside(step) {
      OutsideApart(s, step, maxRetries);
    } else {
      WorkerApart(s, step, maxRetries);
    }
  }

  /** In every interleaving of enqueues, flushes, purges, recoveries, retries and failures, an order
      on the sell list is a SELL and none on the buy list is, what the worker took from either list
      is of that side, and whatever is pending or popped from there bears the time of its entry. So
      no buy ever goes before a sell by way of the wrong list. */
  lemma {:induction false} SidesStayApart(s: State, steps: seq<Step>, maxRetries: int)
    requires Apart(s)
    ensures Apart(Run(s, steps, maxRetries))
    decreases |steps|
  {
    if steps != [] {
      StepApart(s, steps[0], maxRetries);
      SidesStayApart(Apply(s, steps[0], maxRetries), steps[1..], maxRetries);
    }
  }
}
