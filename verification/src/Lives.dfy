/** What holds of every payload in a run. Only entering the pending list and retrying rewrite a
    payload; everything else moves the serialized text. */
module Lives {
  import opened Orders
  import opened OrderQueue
  import opened Protocol

  predicate Holds(p: Payload, ok: Order -> bool) {
    p.Json? ==> ok(p.order)
  }

  predicate AllHold(list: seq<Payload>, ok: Order -> bool) {
    forall i :: 0 <= i < |list| ==> Holds(list[i], ok)
  }

  predicate ListsHold(q: Queues, ok: Order -> bool) {
    AllHold(q.sell, ok) && AllHold(q.buy, ok) && AllHold(q.pending, ok) && AllHold(q.processing, ok)
  }

  predicate WorkerHolds(w: Worker, ok: Order -> bool) {
    && (w.Recovering? && w.hand.Some? ==> Holds(w.hand.value, ok))
    && (HasOrder(w) || w.Acking? ==> Holds(w.h.raw, ok))
  }

  /** Every order in a list or in a process's hand is as required. */
  predicate Everywhere(s: State, ok: Order -> bool) {
    && ListsHold(s.q, ok)
    && (forall i :: 0 <= i < |s.sweepers| && s.sweepers[i].hand.Some? ==> Holds(s.sweepers[i].hand.value, ok))
    && WorkerHolds(s.worker, ok)
  }

  /** The requirement survives the two rewritings. */
  ghost predicate Survives(ok: Order -> bool, maxRetries: int) {
    && (forall o, now :: ok(o) ==> ok(EnterPending(o, now)))
    && (forall o :: ok(o) && o.retryCount < maxRetries ==> ok(Retried(o)))
  }

  /** An order that a step takes in enters the lists as required. */
  predicate Enters(step: Step, ok: Order -> bool) {
    && (step.Accept? ==> ok(step.o))
    && (step.AcceptPending? ==> ok(EnterPending(step.o, step.now)))
  }

  lemma {:induction false} LremHolds(list: seq<Payload>, p: Payload, ok: Order -> bool)
    requires AllHold(list, ok)
    ensures AllHold(Lrem(list, p), ok)
  {
    if list != [] && list[0] != p {
      LremHolds(list[1..], p, ok);
    }
  }

  lemma PushHolds(q: Queues, side: Side, p: Payload, ok: Order -> bool)
    requires ListsHold(q, ok) && Holds(p, ok)
    ensures ListsHold(LpushSide(q, side, p), ok)
  {
  }

  lemma SweepKeeps(s: State, i: nat, ok: Order -> bool)
    requires Everywhere(s, ok) && i < |s.sweepers|
    ensures Everywhere(PopStep(s, i), ok) && Everywhere(CutShort(s, i), ok) && Everywhere(AbortStep(s, i), ok)
  {
  }

  lemma PlaceKeeps(s: State, i: nat, fate: Fate, ok: Order -> bool)
    requires Everywhere(s, ok) && i < |s.sweepers| && s.sweepers[i].hand.Some?
    ensures Everywhere(PlaceAs(s, i, fate), ok)
  {
  }

  lemma AcceptKeeps(s: State, o: Order, ok: Order -> bool)
    requires Everywhere(s, ok) && ok(o)
    ensures Everywhere(AcceptStep(s, o), ok)
  {
    PushHolds(s.q, o.action, Json(o), ok);
  }

  lemma AcceptPendingKeeps(s: State, o: Order, now: int, ok: Order -> bool)
    requires Everywhere(s, ok) && ok(EnterPending(o, now))
    ensures Everywhere(AcceptPendingStep(s, o, now), ok)
  {
  }

  lemma OutsideKeeps(s: State, step: Step, maxRetries: int, ok: Order -> bool)
    requires Everywhere(s, ok) && Enters(step, ok) && Outside(step)
    ensures Everywhere(Apply(s, step, maxRetries), ok)
  {
    match step
    case Accept(o) => AcceptKeeps(s, o, ok);
    case AcceptPending(o, now) => AcceptPendingKeeps(s, o, now, ok);
    case StartSweep(_, _, _) =>
    case Pop(i) => if i < |s.sweepers| { SweepKeeps(s, i, ok); }
    case Place(i) =>
      if i < |s.sweepers| && s.sweepers[i].hand.Some? {
        var m := s.sweepers[i];
        PlaceKeeps(s, i, FateOf(m.hand.value, m.sweep, m.now, m.ttl), ok);
      }
    case Abort(i) => if i < |s.sweepers| { SweepKeeps(s, i, ok); }
  }

  lemma RecoverKeeps(s: State, ok: Order -> bool)
    requires Everywhere(s, ok)
    ensures Everywhere(RecoverPopStep(s), ok) && Everywhere(RecoverPushStep(s), ok)
  {
  }

  lemma TakeKeeps(s: State, source: Side, replied: bool, ok: Order -> bool)
    requires Everywhere(s, ok) && source != Other
    ensures Everywhere(TakeStep(s, source, replied), ok)
  {
  }

  lemma RemovalKeeps(s: State, applied: bool, ok: Order -> bool)
    requires Everywhere(s, ok)
    ensures Everywhere(AckStep(s, applied), ok) && Everywhere(DiscardStep(s), ok)
  {
    if s.worker.Acking? {
      LremHolds(s.q.processing, s.worker.h.raw, ok);
    }
    if s.worker.Garbage? {
      LremHolds(s.q.processing, s.worker.raw, ok);
    }
  }

  lemma RependKeeps(s: State, now: int, maxRetries: int, ok: Order -> bool)
    requires Everywhere(s, ok) && Survives(ok, maxRetries)
    ensures Everywhere(RependStep(s, now), ok)
  {
  }

  lemma SweepingKeeps(s: State, m: Sweeper, ok: Order -> bool)
    requires Everywhere(s, ok) && m.hand.None?
    ensures Everywhere(BeginSweepStep(s, m), ok) && Everywhere(EndSweepStep(s), ok)
  {
  }

  lemma MovesKeep(s: State, step: Step, maxRetries: int, ok: Order -> bool)
    requires Everywhere(s, ok) && Survives(ok, maxRetries) && Moves(step)
    ensures Everywhere(WorkerStep(s, step, maxRetries), ok)
  {
    hide Everywhere, Survives;
    match step
    case BeginSweep(sweep, now, ttl) => SweepingKeeps(s, Sweeper(sweep, now, ttl, |s.q.pending|, None), ok);
    case EndSweep => SweepingKeeps(s, Sweeper(Purge, 0, 0, 0, None), ok);
    case RecoverPop => RecoverKeeps(s, ok);
    case RecoverPush => RecoverKeeps(s, ok);
    case TakeSell(replied) => TakeKeeps(s, Sell, replied, ok);
    case TakeBuy(replied) => TakeKeeps(s, Buy, replied, ok);
    case Discard => RemovalKeeps(s, true, ok);
    case Repend(now) => RependKeeps(s, now, maxRetries, ok);
  }

  lemma RetryPushKeeps(s: State, maxRetries: int, ok: Order -> bool)
    requires Everywhere(s, ok) && Survives(ok, maxRetries)
    ensures Everywhere(RetryPushStep(s, maxRetries), ok)
  {
    if s.worker.Failing? && s.worker.h.raw.Json? && s.worker.h.raw.order.retryCount < maxRetries {
      var o := s.worker.h.raw.order;
      PushHolds(s.q, o.action, Json(Retried(o)), ok);
    }
  }

  lemma RestoreKeeps(s: State, raised: bool, applied: bool, ok: Order -> bool)
    requires Everywhere(s, ok)
    ensures Everywhere(RestoreStep(s, raised, applied), ok)
  {
    if s.worker.Restoring? {
      var h := s.worker.h;
      LremHolds(s.q.processing, h.raw, ok);
      PushHolds(s.q.(processing := Lrem(s.q.processing, h.raw)), h.source, h.raw, ok);
    }
  }

  lemma DecisionsKeep(s: State, step: Step, maxRetries: int, ok: Order -> bool)
    requires Everywhere(s, ok) && Survives(ok, maxRetries) && Decides(step)
    ensures Everywhere(WorkerStep(s, step, maxRetries), ok)
  {
    match step
    case Conclude =>
    case Raise =>
    case RetryPush => RetryPushKeeps(s, maxRetries, ok);
    case Restore(raised, applied) => RestoreKeeps(s, raised, applied, ok);
  }

  lemma CrashKeeps(s: State, ok: Order -> bool)
    requires Everywhere(s, ok)
    ensures Everywhere(CrashStep(s), ok) && Everywhere(ShutdownStep(s), ok)
  {
    if s.worker.Sweeping? && s.worker.i < |s.sweepers| {
      SweepKeeps(s, s.worker.i, ok);
    }
  }

  lemma WorkerKeeps(s: State, step: Step, maxRetries: int, ok: Order -> bool)
    requires Everywhere(s, ok) && Survives(ok, maxRetries)
    ensures Everywhere(WorkerStep(s, step, maxRetries), ok)
  {
    if Moves(step) {
      MovesKeep(s, step, maxRetries, ok);
    } else if Decides(step) {
      DecisionsKeep(s, step, maxRetries, ok);
    } else {
      CrashKeeps(s, ok);
      if step.Ack? {
        RemovalKeeps(s, step.applied, ok);
      }
    }
  }

  lemma StepKeeps(s: State, step: Step, maxRetries: int, ok: Order -> bool)
    requires Everywhere(s, ok) && Survives(ok, maxRetries) && Enters(step, ok)
    ensures Everywhere(Apply(s, step, maxRetries), ok)
  {
    if Outside(step) {
      OutsideKeeps(s, step, maxRetries, ok);
    } else {
      WorkerKeeps(s, step, maxRetries, ok);
    }
  }

  /** What holds of the orders taken in and survives entering pending and retrying holds of every
      order in the lists and hands, in every interleaving with any failures: nothing else rewrites
      a payload. */
  lemma {:induction false} RunKeeps(s: State, steps: seq<Step>, maxRetries: int, ok: Order -> bool)
    requires Everywhere(s, ok) && Survives(ok, maxRetries)
    requires forall i :: 0 <= i < |steps| ==> Enters(steps[i], ok)
    ensures Everywhere(Run(s, steps, maxRetries), ok)
    decreases |steps|
  {
    if steps != [] {
      StepKeeps(s, steps[0], maxRetries, ok);
      RunKeeps(Apply(s, steps[0], maxRetries), steps[1..], maxRetries, ok);
    }
  }

  // ----- the age origin of an order in a run

  /** The order c, wherever it is, dates from t by a time that rewriting never touches. */
  function Dated(c: Order, t: int): Order -> bool {
    o => Core(o) == c ==> Anchored(o) && Origin(o) == Some(t)
  }

  lemma DatedSurvives(c: Order, t: int, maxRetries: int)
    ensures Survives(Dated(c, t), maxRetries)
  {
    forall o, now | Dated(c, t)(o) ensures Dated(c, t)(EnterPending(o, now)) {
      assert Core(EnterPending(o, now)) == Core(o);
    }
    forall o | Dated(c, t)(o) ensures Dated(c, t)(Retried(o)) {
      assert Core(Retried(o)) == Core(o);
    }
  }

  /** No copy of the order c. */
  function Not(c: Order): Order -> bool {
    o => Core(o) != c
  }

  /** The order c is taken in with the age origin t: into the pending list when it is anchorable, or
      straight into an active list when the origin is already readable. */
  predicate TakenInAt(step: Step, c: Order, t: int) {
    && (step.AcceptPending? && Core(step.o) == c ==>
          Anchorable(step.o) && Origin(EnterPending(step.o, step.now)) == Some(t))
    && (step.Accept? && Core(step.o) == c ==> Anchored(step.o) && Origin(step.o) == Some(t))
  }

  /** An order that is anchorable when it enters the pending list comes out dated. */
  lemma EntersDated(o: Order, now: int)
    requires Anchorable(o)
    ensures Anchored(EnterPending(o, now)) && Origin(EnterPending(o, now)).Some?
    ensures Dated(Core(o), Origin(EnterPending(o, now)).value)(EnterPending(o, now))
  {
  }

  lemma TakenInDated(step: Step, c: Order, t: int)
    requires TakenInAt(step, c, t)
    ensures Enters(step, Dated(c, t))
  {
    if step.AcceptPending? && Core(step.o) == c {
      EntersDated(step.o, step.now);
    } else if step.AcceptPending? {
      assert Core(EnterPending(step.o, step.now)) == Core(step.o);
    }
  }

  lemma AbsentIsDated(s: State, c: Order, t: int)
    requires Everywhere(s, Not(c))
    ensures Everywhere(s, Dated(c, t))
  {
    forall p: Payload | Holds(p, Not(c)) ensures Holds(p, Dated(c, t)) {
    }
  }

  /** A sweep that holds the order c and whose clock puts t past the limit expires it. */
  predicate OnlyExpires(s: State, c: Order, t: int) {
    forall i :: 0 <= i < |s.sweepers| ==>
      var m := s.sweepers[i];
      m.hand.Some? && m.hand.value.Json? && Core(m.hand.value.order) == c && m.now - t > m.ttl > 0 ==>
        FateOf(m.hand.value, m.sweep, m.now, m.ttl) == Expire
  }

  lemma DatedOnlyExpires(s: State, c: Order, t: int)
    requires Everywhere(s, Dated(c, t))
    ensures OnlyExpires(s, c, t)
  {
    forall i | 0 <= i < |s.sweepers| && s.sweepers[i].hand.Some? ensures Holds(s.sweepers[i].hand.value, Dated(c, t)) {
    }
  }

  /** An order that is anchorable when it is taken in keeps the age origin it gets then, through
      any run of flushes, dequeues, retries, re-pendings and failures; so no sweep whose clock puts
      it past the limit does anything but expire it. */
  lemma TooOldNeverActivatedInRuns(s: State, steps: seq<Step>, maxRetries: int, c: Order, t: int)
    requires Everywhere(s, Not(c)) && forall i :: 0 <= i < |steps| ==> TakenInAt(steps[i], c, t)
    ensures var s' := Run(s, steps, maxRetries); Everywhere(s', Dated(c, t)) && OnlyExpires(s', c, t)
  {
    DatedSurvives(c, t, maxRetries);
    AbsentIsDated(s, c, t);
    forall i | 0 <= i < |steps| ensures Enters(steps[i], Dated(c, t)) {
      TakenInDated(steps[i], c, t);
    }
    RunKeeps(s, steps, maxRetries, Dated(c, t));
    DatedOnlyExpires(Run(s, steps, maxRetries), c, t);
  }
}
