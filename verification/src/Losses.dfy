/** Which steps of the order pipeline lose an order, which finish one, and the runs in which
    orders are lost. */
module Losses {
  import opened Orders
  import opened OrderQueue
  import opened Protocol

  /** A BUY or SELL. */
  predicate IsTrade(p: Payload) {
    p.Json? && p.order.action != Other
  }

  predicate HoldsTrade(hand: Option<Payload>) {
    hand.Some? && IsTrade(hand.value)
  }

  /** The worker's death would take a popped order with it: in restart recovery between RPOP and
      LPUSH, or between the same two commands of a purge or flush of its own. */
  predicate Exposed(s: State) {
    var w := s.worker;
    || (w.Recovering? && HoldsTrade(w.hand))
    || (w.Sweeping? && w.i < |s.sweepers| && HoldsTrade(s.sweepers[w.i].hand))
  }

  /** The worker is about to acknowledge an order that it neither finished nor copied. */
  predicate AboutToAbandon(w: Worker) {
    w.Acking? && w.verdict.Abandoned?
  }

  predicate AboutToFinish(w: Worker) {
    w.Acking? && w.verdict.Done?
  }

  /** The acknowledgement would remove a BUY or SELL from the processing list. */
  predicate RemovesTrade(s: State, step: Step) {
    step == Ack(true) && s.worker.Acking? && s.worker.h.raw in s.q.processing && IsTrade(s.worker.h.raw)
  }

  // ----- losing

  predicate LosesOrder(s: State, step: Step) {
    || (step.Abort? && step.i < |s.sweepers| && HoldsTrade(s.sweepers[step.i].hand))
    || ((step.Crash? || step.Shutdown?) && Exposed(s))
    || (RemovesTrade(s, step) && AboutToAbandon(s.worker))
  }

  /** The record of losses goes from one to the other by one order, or not at all. */
  predicate Grows(lost: multiset<Order>, lost': multiset<Order>, more: bool) {
    |lost'| == |lost| + (if more then 1 else 0) && (lost' != lost <==> more)
  }

  lemma GrowsBy(lost: multiset<Order>, p: Payload)
    ensures Grows(lost, lost + Trade(p), IsTrade(p))
  {
    if IsTrade(p) {
      assert (lost + Trade(p))[Core(p.order)] == lost[Core(p.order)] + 1;
    }
  }

  lemma HandGrows(lost: multiset<Order>, hand: Option<Payload>)
    ensures Grows(lost, lost + HandTrade(hand), HoldsTrade(hand))
  {
    if hand.Some? {
      GrowsBy(lost, hand.value);
    }
  }

  lemma CrashLoses(s: State)
    ensures Grows(s.lost, CrashStep(s).lost, Exposed(s))
  {
    if s.worker.Sweeping? && s.worker.i < |s.sweepers| {
      HandGrows(s.lost, s.sweepers[s.worker.i].hand);
    } else if s.worker.Recovering? {
      HandGrows(s.lost, s.worker.hand);
    }
  }

  lemma ShutdownLoses(s: State)
    ensures Grows(s.lost, ShutdownStep(s).lost, Exposed(s))
  {
    if !HasOrder(s.worker) {
      CrashLoses(s);
    }
  }

  lemma AckLoses(s: State, applied: bool)
    ensures Grows(s.lost, AckStep(s, applied).lost, RemovesTrade(s, Ack(applied)) && AboutToAbandon(s.worker))
  {
    if s.worker.Acking? {
      GrowsBy(s.lost, s.worker.h.raw);
    }
  }

  lemma CrashStepLoses(s: State, maxRetries: int)
    ensures Grows(s.lost, Apply(s, Crash, maxRetries).lost, LosesOrder(s, Crash))
    ensures Grows(s.lost, Apply(s, Shutdown, maxRetries).lost, LosesOrder(s, Shutdown))
  {
    hide Apply, CrashStep, ShutdownStep, Exposed, Grows;
    ApplyCrash(s, maxRetries);
    CrashLoses(s);
    ShutdownLoses(s);
  }

  lemma AckStepLoses(s: State, applied: bool, maxRetries: int)
    ensures Grows(s.lost, Apply(s, Ack(applied), maxRetries).lost, LosesOrder(s, Ack(applied)))
  {
    hide Apply, AckStep, Grows;
    ApplyAck(s, applied, maxRetries);
    AckLoses(s, applied);
  }

  lemma AbortLoses(s: State, i: nat)
    requires i < |s.sweepers|
    ensures Grows(s.lost, AbortStep(s, i).lost, HoldsTrade(s.sweepers[i].hand))
  {
    HandGrows(s.lost, s.sweepers[i].hand);
    assert AbortStep(s, i).lost == s.lost + HandTrade(s.sweepers[i].hand);
  }

  lemma AbortStepLoses(s: State, i: nat, maxRetries: int)
    ensures Grows(s.lost, Apply(s, Abort(i), maxRetries).lost, LosesOrder(s, Abort(i)))
  {
    hide Apply, AbortStep;
    ApplyAbort(s, i, maxRetries);
    if i < |s.sweepers| {
      AbortLoses(s, i);
    }
  }

  lemma OtherStepsLoseNothing(s: State, step: Step, maxRetries: int)
    requires !step.Abort? && !Ends(step)
    ensures Grows(s.lost, Apply(s, step, maxRetries).lost, LosesOrder(s, step))
  {
    assert Apply(s, step, maxRetries).lost == s.lost;
  }

  /** A step puts an order on record as lost exactly when a sweeper ends with it in hand, the
      worker dies exposed, or an abandoning acknowledgement reaches it. */
  lemma StepLosesExactly(s: State, step: Step, maxRetries: int)
    ensures Grows(s.lost, Apply(s, step, maxRetries).lost, LosesOrder(s, step))
  {
    hide Apply, LosesOrder, Grows;
    match step
    case Abort(i) => AbortStepLoses(s, i, maxRetries);
    case Ack(applied) => AckStepLoses(s, applied, maxRetries);
    case Crash => CrashStepLoses(s, maxRetries);
    case Shutdown => CrashStepLoses(s, maxRetries);
    case _ => OtherStepsLoseNothing(s, step, maxRetries);
  }

  /** Steps of other processes leave a worker with an order alone. */
  lemma OutsideKeepsOrder(s: State, step: Step, maxRetries: int)
    requires Outside(step)
    ensures var w := Apply(s, step, maxRetries).worker; w == s.worker || (s.worker.Sweeping? && w.Idle?)
  {
  }

  lemma MovesDecideNothing(s: State, step: Step, maxRetries: int)
    requires Moves(step) || step.StartWorker?
    ensures var w := WorkerStep(s, step, maxRetries).worker; w.Acking? ==> w == s.worker
  {
  }

  /** The worker comes to abandon an order in two ways, and only when no copy was pushed:
      requeue_processing_order raises, or it is stopped in mid-order. */
  lemma AbandonsExactly(s: State, step: Step, maxRetries: int)
    requires !AboutToAbandon(s.worker)
    ensures AboutToAbandon(Apply(s, step, maxRetries).worker)
        <==> || (step.Restore? && step.raised && s.worker.Restoring? && !s.worker.copied)
             || (step.Shutdown? && HasOrder(s.worker) && !s.worker.copied)
  {
    if Outside(step) {
      OutsideKeepsOrder(s, step, maxRetries);
    } else if Moves(step) || step.StartWorker? {
      MovesDecideNothing(s, step, maxRetries);
    }
  }

  /** How many steps of the run lose an order. */
  function Losses(s: State, steps: seq<Step>, maxRetries: int): nat
    decreases |steps|
  {
    if steps == [] then 0
    else (if LosesOrder(s, steps[0]) then 1 else 0) + Losses(Apply(s, steps[0], maxRetries), steps[1..], maxRetries)
  }

  lemma {:induction false} RunLosesExactly(s: State, steps: seq<Step>, maxRetries: int)
    ensures |Run(s, steps, maxRetries).lost| == |s.lost| + Losses(s, steps, maxRetries)
    decreases |steps|
  {
    if steps != [] {
      StepLosesExactly(s, steps[0], maxRetries);
      RunLosesExactly(Apply(s, steps[0], maxRetries), steps[1..], maxRetries);
    }
  }

  /** A run has lost exactly as many orders as it took losing steps; without one, every order taken
      in is live or finished, whatever else crashed or failed. */
  lemma OnlyLosingStepsLose(q: Queues, steps: seq<Step>, maxRetries: int, c: Order)
    ensures var s := Run(Init(q), steps, maxRetries);
      && |s.lost| == Losses(Init(q), steps, maxRetries)
      && (s.lost == multiset{} <==> Losses(Init(q), steps, maxRetries) == 0)
      && (Losses(Init(q), steps, maxRetries) == 0 ==> s.accepted[c] <= Live(s, c) + s.done[c])
  {
    RunLosesExactly(Init(q), steps, maxRetries);
    NoOrderVanishes(q, steps, maxRetries, c);
  }

  // ----- finishing

  predicate FinishesOrder(s: State, step: Step) {
    || (RemovesTrade(s, step) && AboutToFinish(s.worker))
    || (step.Place? && step.i < |s.sweepers| && HoldsTrade(s.sweepers[step.i].hand)
        && Expired(s.sweepers[step.i].hand.value.order, s.sweepers[step.i].now, s.sweepers[step.i].ttl))
  }

  lemma AckFinishes(s: State, applied: bool)
    ensures Grows(s.done, AckStep(s, applied).done, RemovesTrade(s, Ack(applied)) && AboutToFinish(s.worker))
  {
    if s.worker.Acking? {
      GrowsBy(s.done, s.worker.h.raw);
    }
  }

  lemma PlaceFinishes(s: State, i: nat)
    requires i < |s.sweepers| && s.sweepers[i].hand.Some?
    ensures Grows(s.done, PlaceStep(s, i).done, FinishesOrder(s, Place(i)))
  {
    GrowsBy(s.done, s.sweepers[i].hand.value);
  }

  lemma OtherStepsFinishNothing(s: State, step: Step, maxRetries: int)
    requires !step.Place? && !step.Ack?
    ensures Apply(s, step, maxRetries).done == s.done
  {
  }

  /** A step finishes an order exactly when a sweep finds it expired, or a finishing
      acknowledgement reaches it. */
  lemma StepFinishesExactly(s: State, step: Step, maxRetries: int)
    ensures Grows(s.done, Apply(s, step, maxRetries).done, FinishesOrder(s, step))
  {
    match step
    case Ack(applied) => AckFinishes(s, applied);
    case Place(i) => if i < |s.sweepers| && s.sweepers[i].hand.Some? { PlaceFinishes(s, i); }
    case _ => OtherStepsFinishNothing(s, step, maxRetries);
  }

  /** The worker comes to finish an order when it was processed, its retry bookkeeping is done, or
      no retry is left, and only when no copy was pushed. */
  lemma ComesToFinishExactly(s: State, step: Step, maxRetries: int)
    requires !AboutToFinish(s.worker)
    ensures AboutToFinish(Apply(s, step, maxRetries).worker)
        <==> || (step.Conclude? && (s.worker.Working? || s.worker.Retrying?) && !s.worker.copied)
             || (step.RetryPush? && s.worker.Failing? && !s.worker.copied
                 && s.worker.h.raw.Json? && s.worker.h.raw.order.retryCount >= maxRetries)
  {
    if Outside(step) {
      OutsideKeepsOrder(s, step, maxRetries);
    } else if Moves(step) || step.StartWorker? {
      MovesDecideNothing(s, step, maxRetries);
    }
  }

  // ----- what the losing steps do to the lists and hands

  lemma CutShortLive(s: State, i: nat, c: Order)
    requires i < |s.sweepers|
    ensures Live(CutShort(s, i), c) == Live(s, c) - HandStands(s.sweepers[i].hand, c)
  {
    HandsUpdated(s.sweepers, i, s.sweepers[i].(left := 0, hand := None), c);
  }

  /** A sweep that is cut short takes exactly the order in its hand out of the lists and hands. */
  lemma AbortTakesExactlyTheHand(s: State, i: nat, c: Order)
    requires i < |s.sweepers|
    ensures Live(AbortStep(s, i), c) == Live(s, c) - HandStands(s.sweepers[i].hand, c)
  {
    CutShortLive(s, i, c);
  }

  lemma CrashTakes(s: State, c: Order)
    ensures Live(CrashStep(s), c) <= Live(s, c)
    ensures !Exposed(s) ==> Live(CrashStep(s), c) == Live(s, c)
  {
    if s.worker.Sweeping? && s.worker.i < |s.sweepers| {
      CutShortLive(s, s.worker.i, c);
    }
  }

  lemma ExposedCrashTakes(s: State)
    requires Exposed(s)
    ensures exists c :: Live(CrashStep(s), c) < Live(s, c)
  {
    var p := if s.worker.Recovering? then s.worker.hand.value else s.sweepers[s.worker.i].hand.value;
    var c := Core(p.order);
    if s.worker.Sweeping? {
      CutShortLive(s, s.worker.i, c);
    }
    assert Live(CrashStep(s), c) == Live(s, c) - 1;
  }

  /** The death of the worker takes an order out of the lists and hands exactly when it strikes
      between RPOP and LPUSH of restart recovery or of the worker's own purge or flush. */
  lemma CrashTakesExactlyWhenExposed(s: State)
    ensures (exists c :: Live(CrashStep(s), c) < Live(s, c)) <==> Exposed(s)
  {
    if Exposed(s) {
      ExposedCrashTakes(s);
    } else {
      forall c ensures Live(CrashStep(s), c) == Live(s, c) {
        CrashTakes(s, c);
      }
    }
  }

  // ----- runs that lose an order

  lemma RunThenAck(s: State, x: Step, maxRetries: int)
    ensures Run(s, [x, Ack(true)], maxRetries) == AckStep(Apply(s, x, maxRetries), true)
  {
    hide Apply;
    RunTwo(s, x, Ack(true), maxRetries);
    ApplyAck(Apply(s, x, maxRetries), true, maxRetries);
  }

  /** The processing list after requeue_processing_order raised, with or without its commands
      having been applied. */
  function AfterRaisedRestore(s: State, applied: bool): Queues
    requires s.worker.Restoring?
  {
    if applied then Restored(s.q, s.worker.h) else s.q
  }

  lemma {:induction false} LremAbsent(list: seq<Payload>, x: Payload)
    ensures x !in list ==> Lrem(list, x) == list
  {
    if list != [] {
      LremAbsent(list[1..], x);
    }
  }

  lemma AckAbandoned(s: State)
    requires AboutToAbandon(s.worker)
    ensures var s', raw := AckStep(s, true), s.worker.h.raw;
      && s'.worker == (if s.worker.exiting then Down else Idle)
      && s'.q == s.q.(processing := Lrem(s.q.processing, raw))
      && s'.lost == s.lost + if raw in s.q.processing then Trade(raw) else multiset{}
  {
    LremAbsent(s.q.processing, s.worker.h.raw);
  }

  lemma AbandonedIsRemoved(s: State, applied: bool, maxRetries: int)
    requires s.worker.Restoring? && !s.worker.copied
    ensures var s' := Run(s, [Restore(true, applied), Ack(true)], maxRetries);
      var q, raw := AfterRaisedRestore(s, applied), s.worker.h.raw;
      && s'.worker == Idle
      && s'.q == q.(processing := Lrem(q.processing, raw))
      && s'.lost == s.lost + if raw in q.processing then Trade(raw) else multiset{}
  {
    RunThenAck(s, Restore(true, applied), maxRetries);
    AckAbandoned(RestoreStep(s, true, applied));
  }

  /** When requeue_processing_order raises, the order it was to restore is lost by the
      acknowledgement that follows, unless its commands were applied all the same and removed the
      only such payload. */
  lemma RaisedRestoreLosesExactly(s: State, applied: bool, maxRetries: int)
    requires s.worker.Restoring? && !s.worker.copied && IsTrade(s.worker.h.raw)
    ensures Run(s, [Restore(true, applied), Ack(true)], maxRetries).lost != s.lost
        <==> s.worker.h.raw in (if applied then Lrem(s.q.processing, s.worker.h.raw) else s.q.processing)
  {
    AbandonedIsRemoved(s, applied, maxRetries);
    GrowsBy(s.lost, s.worker.h.raw);
  }

  lemma StoppedAckLoses(s: State)
    requires HasOrder(s.worker) && s.worker.h.raw in s.q.processing && IsTrade(s.worker.h.raw)
    ensures Grows(s.lost, AckStep(ShutdownStep(s), true).lost, !s.worker.copied)
  {
    AckLoses(ShutdownStep(s), true);
  }

  /** A worker told to stop in mid-order acknowledges it, and loses it exactly when it had pushed
      no copy. */
  lemma ShutdownLosesExactly(s: State, maxRetries: int)
    requires HasOrder(s.worker) && s.worker.h.raw in s.q.processing && IsTrade(s.worker.h.raw)
    ensures Grows(s.lost, Run(s, [Shutdown, Ack(true)], maxRetries).lost, !s.worker.copied)
  {
    RunThenAck(s, Shutdown, maxRetries);
    StoppedAckLoses(s);
  }

  lemma CrashAndRestart(s: State, maxRetries: int)
    requires s.worker.Working?
    ensures Run(s, [Crash, StartWorker], maxRetries) == s.(worker := Recovering(None))
  {
    RunTwo(s, Crash, StartWorker, maxRetries);
  }

  lemma RecoveryPops(s: State, p: Payload)
    requires s.worker == Recovering(None) && s.q.processing == [p]
    ensures RecoverPopStep(s) == s.(q := s.q.(processing := []), worker := Recovering(Some(p)))
  {
    assert s.q.processing[..0] == [];
  }

  lemma CrashInRecovery(s: State, p: Payload, maxRetries: int)
    requires s.worker == Recovering(None) && s.q.processing == [p]
    ensures Run(s, [RecoverPop, Crash], maxRetries)
         == s.(q := s.q.(processing := []), worker := Down, lost := s.lost + Trade(p))
  {
    RunTwo(s, RecoverPop, Crash, maxRetries);
    RecoveryPops(s, p);
  }

  /** Whatever order is alone in the processing list when the worker dies can vanish: the
      restarted worker dies as well, between the two commands of its recovery loop. */
  lemma TwoCrashesLoseAnOrder(s: State, p: Payload, maxRetries: int)
    requires s.q.processing == [p] && s.worker.Working?
    ensures Run(Run(s, [Crash, StartWorker], maxRetries), [RecoverPop, Crash], maxRetries)
         == s.(q := s.q.(processing := []), worker := Down, lost := s.lost + Trade(p))
  {
    CrashAndRestart(s, maxRetries);
    CrashInRecovery(s.(worker := Recovering(None)), p, maxRetries);
  }

  lemma SweepPops(s: State, p: Payload, sweep: Sweep, now: int, ttl: int, maxRetries: int)
    requires s.worker.Idle? && s.q.pending == [p]
    ensures var i := |s.sweepers|;
      Run(s, [BeginSweep(sweep, now, ttl), Pop(i)], maxRetries)
        == s.(q := s.q.(pending := []), worker := Sweeping(i),
              sweepers := s.sweepers + [Sweeper(sweep, now, ttl, 0, Some(p))])
  {
    RunTwo(s, BeginSweep(sweep, now, ttl), Pop(|s.sweepers|), maxRetries);
    var s1 := BeginSweepStep(s, Sweeper(sweep, now, ttl, 1, None));
    assert s1.sweepers[|s.sweepers| := Sweeper(sweep, now, ttl, 0, Some(p))]
        == s.sweepers + [Sweeper(sweep, now, ttl, 0, Some(p))];
  }

  /** A single crash is enough while the worker sweeps: the last pending order vanishes. */
  lemma CrashInSweepLosesAnOrder(s: State, p: Payload, sweep: Sweep, now: int, ttl: int, maxRetries: int)
    requires s.worker.Idle? && s.q.pending == [p]
    ensures var i := |s.sweepers|;
      var s' := CrashStep(Run(s, [BeginSweep(sweep, now, ttl), Pop(i)], maxRetries));
      s'.q == s.q.(pending := []) && s'.lost == s.lost + Trade(p) && s'.worker == Down
  {
    SweepPops(s, p, sweep, now, ttl, maxRetries);
  }

  // ----- copies, and how the worker lets go of an order

  /** The step pushes a copy of the order in the worker's hands. */
  predicate Copies(s: State, step: Step, maxRetries: int) {
    || (step.Repend? && s.worker.Working? && !s.worker.copied && s.worker.h.raw.Json?)
    || (step.RetryPush? && s.worker.Failing? && s.worker.h.raw.Json? && s.worker.h.raw.order.retryCount < maxRetries
        && s.worker.h.raw.order.action != Other)
  }

  /** From w to w' the worker goes on with its order and knows of its copies, or begins without one. */
  predicate Remembers(w: Worker, w': Worker, copies: bool) {
    && (HasOrder(w) && HasOrder(w') ==> w'.h == w.h && (w'.copied <==> w.copied || copies))
    && (!HasOrder(w) && HasOrder(w') ==> w'.Working? && !w'.copied)
  }

  lemma OutsideRemembers(s: State, step: Step, maxRetries: int)
    requires Outside(step)
    ensures Remembers(s.worker, Apply(s, step, maxRetries).worker, Copies(s, step, maxRetries))
  {
    OutsideKeepsOrder(s, step, maxRetries);
  }

  lemma TakeRemembers(s: State, source: Side, replied: bool)
    requires source != Other && !HasOrder(s.worker)
    ensures Remembers(s.worker, TakeStep(s, source, replied).worker, false)
  {
  }

  lemma SweepsRemember(s: State, m: Sweeper)
    ensures Remembers(s.worker, BeginSweepStep(s, m).worker, false)
    ensures Remembers(s.worker, EndSweepStep(s).worker, false)
    ensures HasOrder(s.worker) ==> BeginSweepStep(s, m) == s == EndSweepStep(s)
  {
  }

  lemma RecoveryRemembers(s: State)
    ensures Remembers(s.worker, RecoverPopStep(s).worker, false) && Remembers(s.worker, RecoverPushStep(s).worker, false)
    ensures HasOrder(s.worker) ==> RecoverPopStep(s) == s == RecoverPushStep(s)
  {
  }

  lemma DiscardRemembers(s: State)
    ensures Remembers(s.worker, DiscardStep(s).worker, false)
    ensures HasOrder(s.worker) ==> DiscardStep(s) == s
  {
  }

  lemma RependRemembers(s: State, now: int, maxRetries: int)
    ensures Remembers(s.worker, RependStep(s, now).worker, Copies(s, Step.Repend(now), maxRetries))
    ensures HasOrder(s.worker) ==> HasOrder(RependStep(s, now).worker)
  {
  }

  lemma OnlyPushesCopy(s: State, step: Step, maxRetries: int)
    ensures Copies(s, step, maxRetries) ==> step.Repend? || step.RetryPush?
  {
  }

  lemma MovesRemember(s: State, step: Step, maxRetries: int)
    requires Moves(step)
    ensures Remembers(s.worker, WorkerStep(s, step, maxRetries).worker, Copies(s, step, maxRetries))
    ensures HasOrder(s.worker) ==> HasOrder(WorkerStep(s, step, maxRetries).worker)
  {
    hide TakeStep, Copies, BeginSweepStep, EndSweepStep, RecoverPopStep, RecoverPushStep, DiscardStep, RependStep;
    OnlyPushesCopy(s, step, maxRetries);
    match step
    case BeginSweep(sweep, now, ttl) => SweepsRemember(s, Sweeper(sweep, now, ttl, |s.q.pending|, None));
    case EndSweep => SweepsRemember(s, Sweeper(Purge, 0, 0, 0, None));
    case RecoverPop => RecoveryRemembers(s);
    case RecoverPush => RecoveryRemembers(s);
    case TakeSell(replied) => if s.worker.Idle? { TakeRemembers(s, Sell, replied); }
    case TakeBuy(replied) => if s.worker.TryBuy? { TakeRemembers(s, Buy, replied); }
    case Discard => DiscardRemembers(s);
    case Repend(now) => RependRemembers(s, now, maxRetries);
  }

  lemma DecisionsRemember(s: State, step: Step, maxRetries: int)
    requires Decides(step)
    ensures Remembers(s.worker, WorkerStep(s, step, maxRetries).worker, Copies(s, step, maxRetries))
  {
    match step
    case Conclude =>
    case Raise =>
    case RetryPush =>
    case Restore(_, _) =>
  }

  lemma AckRemembers(s: State, applied: bool)
    ensures Remembers(s.worker, AckStep(s, applied).worker, false)
  {
  }

  lemma CrashRemembers(s: State)
    ensures Remembers(s.worker, CrashStep(s).worker, false) && Remembers(s.worker, ShutdownStep(s).worker, false)
  {
  }

  lemma EndsRemember(s: State, step: Step, maxRetries: int)
    requires Ends(step) || step.StartWorker?
    ensures Remembers(s.worker, WorkerStep(s, step, maxRetries).worker, Copies(s, step, maxRetries))
  {
    hide AckStep, CrashStep, ShutdownStep, Copies;
    OnlyPushesCopy(s, step, maxRetries);
    AckRemembers(s, step.Ack? && step.applied);
    CrashRemembers(s);
  }

  /** The worker remembers whether it has pushed a copy of its order: it begins without one, each
      copy is remembered while it has the order, and nothing else is. */
  lemma CopyIsRemembered(s: State, step: Step, maxRetries: int)
    ensures Remembers(s.worker, Apply(s, step, maxRetries).worker, Copies(s, step, maxRetries))
  {
    hide Remembers, Copies;
    ApplyWorker(s, step, maxRetries);
    if Outside(step) {
      OutsideRemembers(s, step, maxRetries);
    } else if Moves(step) {
      MovesRemember(s, step, maxRetries);
    } else if Decides(step) {
      DecisionsRemember(s, step, maxRetries);
    } else {
      EndsRemember(s, step, maxRetries);
    }
  }

  /** The worker lets go of an order in three ways: it comes to acknowledge it, and as superseded
      exactly when a copy was pushed; it has put it back on its list; or it dies. */
  lemma LetsGoExactly(s: State, step: Step, maxRetries: int)
    requires HasOrder(s.worker) && !HasOrder(Apply(s, step, maxRetries).worker)
    ensures var w, s' := s.worker, Apply(s, step, maxRetries);
      if step.Crash? then s'.worker.Down? && s'.q == s.q
      else if step.Restore? && !step.raised then s'.worker.Idle? && s'.q == Restored(s.q, w.h)
      else s'.worker.Acking? && s'.worker.h == w.h && (s'.worker.verdict == Superseded <==> w.copied)
           && (s'.worker.exiting <==> step.Shutdown?)
  {
    ApplyWorker(s, step, maxRetries);
    if Outside(step) {
      OutsideKeepsOrder(s, step, maxRetries);
    } else if Moves(step) {
      MovesRemember(s, step, maxRetries);
    }
  }
}
