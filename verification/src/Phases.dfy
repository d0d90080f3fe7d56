/** What counts as taken in, and when the worker comes to each stage of its loop. */
module Phases {
  import opened Orders
  import opened OrderQueue
  import opened Protocol
  import opened Losses

  // ----- what is taken in

  /** The step takes in a BUY or SELL that is the order c. */
  predicate TakesIn(step: Step, c: Order) {
    || (step.Accept? && step.o.action != Other && Core(step.o) == c)
    || (step.AcceptPending? && step.o.action != Other && Core(step.o) == c)
  }

  function Arrivals(steps: seq<Step>, c: Order): nat {
    if steps == [] then 0 else (if TakesIn(steps[0], c) then 1 else 0) + Arrivals(steps[1..], c)
  }

  lemma OutsideTakesIn(s: State, step: Step, maxRetries: int, c: Order)
    requires Outside(step)
    ensures Apply(s, step, maxRetries).accepted[c] == s.accepted[c] + if TakesIn(step, c) then 1 else 0
  {
  }

  lemma WorkerTakesNothingIn(s: State, step: Step, maxRetries: int)
    requires !Outside(step)
    ensures WorkerStep(s, step, maxRetries).accepted == s.accepted
  {
  }

  lemma StepTakesIn(s: State, step: Step, maxRetries: int, c: Order)
    ensures Apply(s, step, maxRetries).accepted[c] == s.accepted[c] + if TakesIn(step, c) then 1 else 0
  {
    hide Apply, WorkerStep;
    ApplyWorker(s, step, maxRetries);
    if Outside(step) {
      OutsideTakesIn(s, step, maxRetries, c);
    } else {
      WorkerTakesNothingIn(s, step, maxRetries);
    }
  }

  lemma {:induction false} RunTakesIn(s: State, steps: seq<Step>, maxRetries: int, c: Order)
    ensures Run(s, steps, maxRetries).accepted[c] == s.accepted[c] + Arrivals(steps, c)
    decreases |steps|
  {
    if steps != [] {
      StepTakesIn(s, steps[0], maxRetries, c);
      RunTakesIn(Apply(s, steps[0], maxRetries), steps[1..], maxRetries, c);
    }
  }

  /** Over any run with any failures every BUY and SELL that was there or was taken in is live,
      finished or on record as lost. */
  lemma ArrivalsAreAccounted(q: Queues, steps: seq<Step>, maxRetries: int, c: Order)
    ensures var s := Run(Init(q), steps, maxRetries);
      ListCount(q, c) + Arrivals(steps, c) <= Live(s, c) + s.done[c] + s.lost[c]
  {
    NoOrderVanishes(q, steps, maxRetries, c);
    RunTakesIn(Init(q), steps, maxRetries, c);
    TradesCount(q.sell, c);
    TradesCount(q.buy, c);
    TradesCount(q.pending, c);
    TradesCount(q.processing, c);
  }

  /** An order that comes in is put in front of the list of its side, or stamped in front of the
      pending list, and changes nothing else there. */
  lemma ArrivalIsPushed(s: State, o: Order, now: int, maxRetries: int)
    ensures var q, q' := s.q, Apply(s, Accept(o), maxRetries).q;
      q' == match o.action
            case Sell => q.(sell := [Json(o)] + q.sell)
            case Buy => q.(buy := [Json(o)] + q.buy)
            case Other => q
    ensures Apply(s, AcceptPending(o, now), maxRetries).q
         == s.q.(pending := [Json(EnterPending(o, now))] + s.q.pending)
  {
  }

  // ----- the stages of an order

  /** The oldest entry of a list is an order that decodes. */
  predicate OldestDecodes(list: seq<Payload>) {
    list != [] && list[|list| - 1].Json?
  }

  /** The worker's place outside any order. */
  predicate AtLoop(w: Worker) {
    w.Idle? || w.TryBuy? || w.Garbage? || w.Sweeping? || w.Recovering?
  }

  lemma SweepsStay(s: State, m: Sweeper)
    ensures BeginSweepStep(s, m).worker == s.worker || AtLoop(BeginSweepStep(s, m).worker)
    ensures EndSweepStep(s).worker == s.worker || AtLoop(EndSweepStep(s).worker)
  {
  }

  lemma RecoveryStays(s: State)
    ensures RecoverPopStep(s).worker == s.worker || AtLoop(RecoverPopStep(s).worker)
    ensures RecoverPushStep(s).worker == s.worker || AtLoop(RecoverPushStep(s).worker)
  {
  }

  lemma DiscardStays(s: State)
    ensures DiscardStep(s).worker == s.worker || AtLoop(DiscardStep(s).worker)
  {
  }

  lemma RependStays(s: State, now: int)
    ensures RependStep(s, now).worker == s.worker || (s.worker.Working? && RependStep(s, now).worker.Working?)
  {
  }

  /** Where a dequeue from one list takes the worker. */
  lemma TakeTells(s: State, source: Side, replied: bool)
    requires source != Other
    ensures var w, list := TakeStep(s, source, replied).worker, if source == Sell then s.q.sell else s.q.buy;
      if replied && OldestDecodes(list) then w == Working(Held(list[|list| - 1], source), false) else AtLoop(w)
  {
  }

  /** The step moves an order that decodes to the worker. */
  predicate TakesOrder(s: State, step: Step) {
    || (step == TakeSell(true) && s.worker.Idle? && OldestDecodes(s.q.sell))
    || (step == TakeBuy(true) && s.worker.TryBuy? && OldestDecodes(s.q.buy))
  }

  lemma MovesComeToWork(s: State, step: Step, maxRetries: int)
    requires Moves(step)
    ensures var w, w' := s.worker, WorkerStep(s, step, maxRetries).worker;
      if TakesOrder(s, step) then
        var list := if step.TakeSell? then s.q.sell else s.q.buy;
        w' == Working(Held(list[|list| - 1], if step.TakeSell? then Sell else Buy), false)
      else w' == w || AtLoop(w') || (w.Working? && w'.Working?)
  {
    hide TakeStep, BeginSweepStep, EndSweepStep, RecoverPopStep, RecoverPushStep, DiscardStep, RependStep, AtLoop;
    match step
    case BeginSweep(sweep, now, ttl) => SweepsStay(s, Sweeper(sweep, now, ttl, |s.q.pending|, None));
    case EndSweep => SweepsStay(s, Sweeper(Purge, 0, 0, 0, None));
    case RecoverPop => RecoveryStays(s);
    case RecoverPush => RecoveryStays(s);
    case TakeSell(replied) => if s.worker.Idle? { TakeTells(s, Sell, replied); }
    case TakeBuy(replied) => if s.worker.TryBuy? { TakeTells(s, Buy, replied); }
    case Discard => DiscardStays(s);
    case Repend(now) => RependStays(s, now);
  }

  lemma EndsComeToNothing(s: State, step: Step, maxRetries: int)
    requires Ends(step) || step.StartWorker?
    ensures var w, w' := s.worker, WorkerStep(s, step, maxRetries).worker;
      w' == w || AtLoop(w') || w'.Down? || (HasOrder(w) && w'.Acking?)
  {
  }

  /** The worker comes to work on an order exactly when it reads the reply to its move of the oldest
      SELL, or of the oldest BUY after it found no SELL, and the entry decodes. */
  lemma ComesToWorkExactly(s: State, step: Step, maxRetries: int)
    requires !HasOrder(s.worker)
    ensures var w := Apply(s, step, maxRetries).worker;
      && (HasOrder(w) <==> TakesOrder(s, step))
      && (HasOrder(w) ==>
            var list := if step.TakeSell? then s.q.sell else s.q.buy;
            w == Working(Held(list[|list| - 1], if step.TakeSell? then Sell else Buy), false))
  {
    hide Apply, WorkerStep;
    ApplyWorker(s, step, maxRetries);
    if Outside(step) {
      OutsideKeepsOrder(s, step, maxRetries);
    } else if Moves(step) {
      MovesComeToWork(s, step, maxRetries);
    } else if Decides(step) {
      DecisionsComeToNothing(s, step, maxRetries);
    } else {
      EndsComeToNothing(s, step, maxRetries);
    }
  }

  lemma DecisionsComeToNothing(s: State, step: Step, maxRetries: int)
    requires Decides(step) && !HasOrder(s.worker)
    ensures WorkerStep(s, step, maxRetries).worker == s.worker
  {
  }

  /** When the reply to the move is lost the entry lies in the processing list and nobody has it. */
  lemma LostReplyLeavesEntry(s: State, maxRetries: int)
    ensures s.worker.Idle? && s.q.sell != [] ==>
      Apply(s, TakeSell(false), maxRetries) == s.(q := Taken(s.q, Sell))
    ensures s.worker.TryBuy? && s.q.buy != [] ==>
      Apply(s, TakeBuy(false), maxRetries) == s.(q := Taken(s.q, Buy), worker := Idle)
  {
  }

  /** From w to w' the step comes to the later stages of an order as the code does: an order fails
      by an exception in its processing, is retried while it has a retry left, and is put back when
      the push of the retry or the bookkeeping after it raises. */
  predicate StagesRight(w: Worker, step: Step, w': Worker, maxRetries: int) {
    var retryable := w.Failing? && w.h.raw.Json? && w.h.raw.order.retryCount < maxRetries;
    && (!w.Failing? ==> (w'.Failing? <==> step.Raise? && w.Working?))
    && (!w.Retrying? ==> (w'.Retrying? <==> step.RetryPush? && retryable))
    && (!w.Restoring? ==> (w'.Restoring? <==> step.Raise? && (w.Retrying? || retryable)))
  }

  lemma DecisionsStage(s: State, step: Step, maxRetries: int)
    requires Decides(step)
    ensures StagesRight(s.worker, step, WorkerStep(s, step, maxRetries).worker, maxRetries)
  {
    match step
    case Conclude =>
    case Raise =>
    case RetryPush =>
    case Restore(_, _) =>
  }

  lemma StagesExactly(s: State, step: Step, maxRetries: int)
    ensures StagesRight(s.worker, step, Apply(s, step, maxRetries).worker, maxRetries)
  {
    hide Apply, WorkerStep;
    ApplyWorker(s, step, maxRetries);
    if Outside(step) {
      OutsideKeepsOrder(s, step, maxRetries);
    } else if Moves(step) {
      MovesComeToWork(s, step, maxRetries);
    } else if Decides(step) {
      DecisionsStage(s, step, maxRetries);
    } else {
      EndsComeToNothing(s, step, maxRetries);
    }
  }

  /** The worker's own sweep is over exactly when it has no turn left and nothing in hand. */
  lemma SweepEndsExactly(s: State, maxRetries: int)
    requires s.worker.Sweeping?
    ensures var s', i := Apply(s, EndSweep, maxRetries), s.worker.i;
      if i < |s.sweepers| && s.sweepers[i].left == 0 && s.sweepers[i].hand.None? then s' == s.(worker := Idle)
      else s' == s
  {
  }

  /** A sweep of the worker's own that an exception cuts short leaves the worker idle. */
  lemma AbortFreesWorker(s: State, i: nat, maxRetries: int)
    requires i < |s.sweepers|
    ensures var s' := Apply(s, Abort(i), maxRetries);
      && s'.worker == (if s.worker == Sweeping(i) then Idle else s.worker)
      && s'.q == s.q && s'.sweepers[i].left == 0 && s'.sweepers[i].hand.None?
  {
  }
}
