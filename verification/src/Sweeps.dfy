/** The pending list under concurrent sweeps, and the operations that the steps add up to when
    nothing interrupts them. */
module Sweeps {
  import opened Orders
  import opened OrderQueue
  import opened Protocol

  function Copies(hand: Option<Payload>, p: Payload): nat {
    if hand == Some(p) then 1 else 0
  }

  function InHands(ss: seq<Sweeper>, p: Payload): nat {
    if ss == [] then 0 else Copies(ss[0].hand, p) + InHands(ss[1..], p)
  }

  /** Whatever enqueue_pending pushed is pending, in a sweeper's hand, activated, dropped as
      expired or undecodable, or was in the hand of a sweeper that died. */
  predicate Conserved(s: State, p: Payload) {
    s.entered[p] == multiset(s.q.pending)[p] + InHands(s.sweepers, p) + s.activated[p] + s.dropped[p] + s.spilled[p]
  }

  lemma {:induction false} InHandsUpdated(ss: seq<Sweeper>, i: nat, m: Sweeper, p: Payload)
    requires i < |ss|
    ensures InHands(ss[i := m], p) + Copies(ss[i].hand, p) == InHands(ss, p) + Copies(m.hand, p)
  {
    if i == 0 {
      assert ss[0 := m][1..] == ss[1..];
    } else {
      InHandsUpdated(ss[1..], i - 1, m, p);
      assert ss[i := m][1..] == ss[1..][i - 1 := m];
    }
  }

  lemma {:induction false} InHandsAppended(ss: seq<Sweeper>, m: Sweeper, p: Payload)
    requires m.hand.None?
    ensures InHands(ss + [m], p) == InHands(ss, p)
  {
    if ss == [] {
      assert [] + [m] == [m];
      assert [m][1..] == [];
    } else {
      InHandsAppended(ss[1..], m, p);
      assert (ss + [m])[1..] == ss[1..] + [m];
    }
  }

  lemma PopConserves(s: State, i: nat, p: Payload)
    requires Conserved(s, p) && i < |s.sweepers|
    ensures Conserved(PopStep(s, i), p)
  {
    var m := s.sweepers[i];
    InHandsUpdated(s.sweepers, i, m.(left := 0), p);
    if s.q.pending != [] && m.left != 0 {
      var n := |s.q.pending| - 1;
      assert s.q.pending == s.q.pending[..n] + [s.q.pending[n]];
      InHandsUpdated(s.sweepers, i, m.(left := m.left - 1, hand := Some(s.q.pending[n])), p);
    }
  }

  lemma PlaceConserves(s: State, i: nat, fate: Fate, p: Payload)
    requires Conserved(s, p) && i < |s.sweepers| && s.sweepers[i].hand.Some?
    ensures Conserved(PlaceAs(s, i, fate), p)
  {
    var m := s.sweepers[i];
    InHandsUpdated(s.sweepers, i, m.(hand := None), p);
  }

  lemma CutShortConserves(s: State, i: nat, p: Payload)
    requires Conserved(s, p) && i < |s.sweepers|
    ensures Conserved(CutShort(s, i), p)
  {
    var m := s.sweepers[i];
    InHandsUpdated(s.sweepers, i, m.(left := 0, hand := None), p);
  }

  /** The part of the state the pending ledger talks about. */
  predicate SamePending(s: State, s': State) {
    && s'.q.pending == s.q.pending && s'.sweepers == s.sweepers && s'.entered == s.entered
    && s'.activated == s.activated && s'.dropped == s.dropped && s'.spilled == s.spilled
  }

  lemma MovesKeepPending(s: State, step: Step, maxRetries: int)
    requires Moves(step) && !step.BeginSweep? && !step.Repend?
    ensures SamePending(s, WorkerStep(s, step, maxRetries))
  {
  }

  lemma RetryPushKeepsPending(s: State, maxRetries: int)
    ensures SamePending(s, RetryPushStep(s, maxRetries))
  {
  }

  lemma RestoreKeepsPending(s: State, raised: bool, applied: bool)
    ensures SamePending(s, RestoreStep(s, raised, applied))
  {
  }

  lemma DecisionsKeepPending(s: State, step: Step, maxRetries: int)
    requires Decides(step)
    ensures SamePending(s, WorkerStep(s, step, maxRetries))
  {
    match step
    case Conclude =>
    case Raise =>
    case RetryPush => RetryPushKeepsPending(s, maxRetries);
    case Restore(raised, applied) => RestoreKeepsPending(s, raised, applied);
  }

  lemma AckKeepsPending(s: State, applied: bool)
    ensures SamePending(s, AckStep(s, applied))
  {
  }

  lemma CrashConserves(s: State, p: Payload)
    requires Conserved(s, p)
    ensures Conserved(CrashStep(s), p) && Conserved(ShutdownStep(s), p)
  {
    if s.worker.Sweeping? && s.worker.i < |s.sweepers| {
      CutShortConserves(s, s.worker.i, p);
    }
  }

  lemma PushPendingConserves(s: State, o: Order, now: int, p: Payload)
    requires Conserved(s, p)
    ensures Conserved(AcceptPendingStep(s, o, now), p)
  {
  }

  lemma OutsideConserves(s: State, step: Step, maxRetries: int, p: Payload)
    requires Conserved(s, p) && Outside(step)
    ensures Conserved(Apply(s, step, maxRetries), p)
  {
    match step
    case Accept(o) =>
    case AcceptPending(o, now) => PushPendingConserves(s, o, now, p);
    case StartSweep(sweep, now, ttl) => InHandsAppended(s.sweepers, Sweeper(sweep, now, ttl, |s.q.pending|, None), p);
    case Pop(i) => if i < |s.sweepers| { PopConserves(s, i, p); }
    case Place(i) =>
      if i < |s.sweepers| && s.sweepers[i].hand.Some? {
        var m := s.sweepers[i];
        PlaceConserves(s, i, FateOf(m.hand.value, m.sweep, m.now, m.ttl), p);
      }
    case Abort(i) => if i < |s.sweepers| { CutShortConserves(s, i, p); }
  }

  lemma RependConserves(s: State, now: int, p: Payload)
    requires Conserved(s, p)
    ensures Conserved(RependStep(s, now), p)
  {
  }

  lemma OtherStepsConserve(s: State, step: Step, maxRetries: int, p: Payload)
    requires Conserved(s, p) && !step.Repend? && !step.BeginSweep? && !Ends(step)
    ensures Conserved(WorkerStep(s, step, maxRetries), p)
  {
    if Moves(step) {
      MovesKeepPending(s, step, maxRetries);
    } else if Decides(step) {
      DecisionsKeepPending(s, step, maxRetries);
    }
  }

  lemma WorkerConserves(s: State, step: Step, maxRetries: int, p: Payload)
    requires Conserved(s, p)
    ensures Conserved(WorkerStep(s, step, maxRetries), p)
  {
    match step
    case Repend(now) => RependConserves(s, now, p);
    case BeginSweep(sweep, now, ttl) => InHandsAppended(s.sweepers, Sweeper(sweep, now, ttl, |s.q.pending|, None), p);
    case Crash => CrashConserves(s, p);
    case Shutdown => CrashConserves(s, p);
    case Ack(applied) => AckKeepsPending(s, applied);
    case _ => OtherStepsConserve(s, step, maxRetries, p);
  }

  lemma StepConserves(s: State, step: Step, maxRetries: int, p: Payload)
    requires Conserved(s, p)
    ensures Conserved(Apply(s, step, maxRetries), p)
  {
    if Outside(step) {
      OutsideConserves(s, step, maxRetries, p);
    } else {
      WorkerConserves(s, step, maxRetries, p);
    }
  }

  lemma {:induction false} RunConserves(s: State, steps: seq<Step>, maxRetries: int, p: Payload)
    requires Conserved(s, p)
    ensures Conserved(Run(s, steps, maxRetries), p)
    decreases |steps|
  {
    if steps != [] {
      StepConserves(s, steps[0], maxRetries, p);
      RunConserves(Apply(s, steps[0], maxRetries), steps[1..], maxRetries, p);
    }
  }

  /** A sweep ends with an entry in hand. */
  predicate Spills(s: State, step: Step) {
    || (step.Abort? && step.i < |s.sweepers| && s.sweepers[step.i].hand.Some?)
    || ((step.Crash? || step.Shutdown?) && s.worker.Sweeping? && s.worker.i < |s.sweepers|
        && s.sweepers[s.worker.i].hand.Some?)
  }

  lemma AbortSpills(s: State, i: nat, maxRetries: int)
    ensures |Apply(s, Abort(i), maxRetries).spilled| == |s.spilled| + if Spills(s, Abort(i)) then 1 else 0
  {
  }

  lemma CrashSpills(s: State, maxRetries: int)
    ensures |Apply(s, Crash, maxRetries).spilled| == |s.spilled| + if Spills(s, Crash) then 1 else 0
    ensures |Apply(s, Shutdown, maxRetries).spilled| == |s.spilled| + if Spills(s, Shutdown) then 1 else 0
  {
    hide Apply;
    ApplyCrash(s, maxRetries);
  }

  lemma OtherStepsSpillNothing(s: State, step: Step, maxRetries: int)
    requires !step.Abort? && !step.Crash? && !step.Shutdown?
    ensures Apply(s, step, maxRetries).spilled == s.spilled && !Spills(s, step)
  {
  }

  lemma StepSpills(s: State, step: Step, maxRetries: int)
    ensures |Apply(s, step, maxRetries).spilled| == |s.spilled| + if Spills(s, step) then 1 else 0
  {
    hide Apply, Spills;
    match step
    case Abort(i) => AbortSpills(s, i, maxRetries);
    case Crash => CrashSpills(s, maxRetries);
    case Shutdown => CrashSpills(s, maxRetries);
    case _ => OtherStepsSpillNothing(s, step, maxRetries);
  }

  function SpillCount(s: State, steps: seq<Step>, maxRetries: int): nat
    decreases |steps|
  {
    if steps == [] then 0
    else (if Spills(s, steps[0]) then 1 else 0) + SpillCount(Apply(s, steps[0], maxRetries), steps[1..], maxRetries)
  }

  lemma {:induction false} RunSpills(s: State, steps: seq<Step>, maxRetries: int)
    ensures |Run(s, steps, maxRetries).spilled| == |s.spilled| + SpillCount(s, steps, maxRetries)
    decreases |steps|
  {
    if steps != [] {
      StepSpills(s, steps[0], maxRetries);
      RunSpills(Apply(s, steps[0], maxRetries), steps[1..], maxRetries);
    }
  }

  /** Any number of concurrent flushes and purges, interleaved with new pushes and with the
      worker, conserve the pending entries but for one at each sweep that ends with an entry in
      hand, and move each pushed entry to an active list at most once. */
  lemma SweepsConservePending(q: Queues, steps: seq<Step>, maxRetries: int, p: Payload)
    ensures var s := Run(Init(q), steps, maxRetries);
      && s.activated[p] <= s.entered[p]
      && s.entered[p]
           == multiset(s.q.pending)[p] + InHands(s.sweepers, p) + s.activated[p] + s.dropped[p] + s.spilled[p]
      && |s.spilled| == SpillCount(Init(q), steps, maxRetries)
  {
    RunConserves(Init(q), steps, maxRetries, p);
    RunSpills(Init(q), steps, maxRetries);
  }

  // ----- uninterrupted, the steps are the operations

  function SweepSteps(i: nat, n: nat): seq<Step> {
    if n == 0 then [] else [Pop(i), Place(i)] + SweepSteps(i, n - 1)
  }

  /** Sweeper i stands between two turns. */
  predicate Turning(s: State, i: nat, sweep: Sweep, now: int, ttl: int, left: nat) {
    i < |s.sweepers| && s.sweepers[i] == Sweeper(sweep, now, ttl, left, None)
  }

  lemma PopTakesLast(s: State, i: nat, sweep: Sweep, now: int, ttl: int, n: nat)
    requires Turning(s, i, sweep, now, ttl, n) && n > 0 && s.q.pending != []
    ensures var last := |s.q.pending| - 1;
      PopStep(s, i) == s.(q := s.q.(pending := s.q.pending[..last]),
                          sweepers := s.sweepers[i := Sweeper(sweep, now, ttl, n - 1, Some(s.q.pending[last]))])
  {
  }

  lemma PopThenPlace(s: State, i: nat, sweep: Sweep, now: int, ttl: int, n: nat, r: Rotation)
    requires Turning(s, i, sweep, now, ttl, n) && n > 0 && s.q.pending != [] && r.q == s.q
    ensures var s' := PlaceStep(PopStep(s, i), i);
      && s'.q == Turn(r, Classifier(sweep, now, ttl)).q
      && Turning(s', i, sweep, now, ttl, n - 1) && s'.worker == s.worker
  {
    hide FateOf, PopStep;
    PopTakesLast(s, i, sweep, now, ttl, n);
  }

  lemma TurnIsTwoSteps(s: State, i: nat, sweep: Sweep, now: int, ttl: int, n: nat, r: Rotation, maxRetries: int)
    requires Turning(s, i, sweep, now, ttl, n) && n > 0 && s.q.pending != [] && r.q == s.q
    ensures var s' := Apply(Apply(s, Pop(i), maxRetries), Place(i), maxRetries);
      && s'.q == Turn(r, Classifier(sweep, now, ttl)).q
      && Turning(s', i, sweep, now, ttl, n - 1) && s'.worker == s.worker
  {
    hide Apply, PlaceStep, Turn;
    PopTakesLast(s, i, sweep, now, ttl, n);
    ApplyPop(s, i, maxRetries);
    ApplyPlace(PopStep(s, i), i, maxRetries);
    PopThenPlace(s, i, sweep, now, ttl, n, r);
  }

  lemma TurnTakesOne(r: Rotation, f: Payload -> Fate)
    requires r.q.pending != []
    ensures |Turn(r, f).q.pending| >= |r.q.pending| - 1
  {
  }

  /** One turn, as a step of the run on one side and of the rotation on the other. */
  lemma NextTurn(s: State, i: nat, sweep: Sweep, now: int, ttl: int, n: nat, r: Rotation, maxRetries: int)
    returns (s': State, r': Rotation)
    requires Turning(s, i, sweep, now, ttl, n) && r.q == s.q && 0 < n <= |s.q.pending|
    ensures Turning(s', i, sweep, now, ttl, n - 1) && r'.q == s'.q && n - 1 <= |s'.q.pending|
    ensures s'.worker == s.worker
    ensures Run(s, SweepSteps(i, n), maxRetries) == Run(s', SweepSteps(i, n - 1), maxRetries)
    ensures Turns(r, n, Classifier(sweep, now, ttl)) == Turns(r', n - 1, Classifier(sweep, now, ttl))
  {
    hide Apply, Turn;
    var f := Classifier(sweep, now, ttl);
    TurnIsTwoSteps(s, i, sweep, now, ttl, n, r, maxRetries);
    TurnTakesOne(r, f);
    RunMore(s, Pop(i), Place(i), SweepSteps(i, n - 1), maxRetries);
    TurnsOnce(r, n, f);
    s', r' := Apply(Apply(s, Pop(i), maxRetries), Place(i), maxRetries), Turn(r, f);
  }

  lemma {:induction false} TurnsAreARun(s: State, i: nat, sweep: Sweep, now: int, ttl: int, n: nat, r: Rotation,
                                        maxRetries: int, end: State, goal: Rotation)
    requires Turning(s, i, sweep, now, ttl, n) && r.q == s.q && n <= |s.q.pending|
    requires end == Run(s, SweepSteps(i, n), maxRetries) && goal == Turns(r, n, Classifier(sweep, now, ttl))
    ensures end.q == goal.q && end.worker == s.worker && Turning(end, i, sweep, now, ttl, 0)
    decreases n
  {
    hide Apply, Turn;
    if n > 0 {
      var s', r' := NextTurn(s, i, sweep, now, ttl, n, r, maxRetries);
      TurnsAreARun(s', i, sweep, now, ttl, n - 1, r', maxRetries, end, goal);
    }
  }

  /** A flush or purge that nothing interrupts, be it another process's or the worker's own, does
      to the lists exactly what the operation run alone does, and ends with no turn left and nothing
      in hand. */
  lemma SweepIsARun(s: State, own: bool, sweep: Sweep, now: int, ttl: int, maxRetries: int)
    requires own ==> s.worker.Idle?
    ensures var start := if own then BeginSweep(sweep, now, ttl) else StartSweep(sweep, now, ttl);
      var s' := Run(s, [start] + SweepSteps(|s.sweepers|, |s.q.pending|), maxRetries);
      && s'.q == Filtered(Rotation(s.q, [], 0, 0), s.q.pending, [], Classifier(sweep, now, ttl)).q
      && s'.worker == (if own then Sweeping(|s.sweepers|) else s.worker)
      && Turning(s', |s.sweepers|, sweep, now, ttl, 0)
  {
    var start := if own then BeginSweep(sweep, now, ttl) else StartSweep(sweep, now, ttl);
    var i, n, r := |s.sweepers|, |s.q.pending|, Rotation(s.q, [], 0, 0);
    RunFirst(s, start, SweepSteps(i, n), maxRetries);
    var s1, f := Apply(s, start, maxRetries), Classifier(sweep, now, ttl);
    TurnsAreARun(s1, i, sweep, now, ttl, n, r, maxRetries, Run(s1, SweepSteps(i, n), maxRetries), Turns(r, n, f));
    TurnsFilter(r, s.q.pending, [], f);
  }

  function RecoverySteps(n: nat): seq<Step> {
    if n == 0 then [RecoverPop] else [RecoverPop, RecoverPush] + RecoverySteps(n - 1)
  }

  lemma RecoverOneIsTwoSteps(s: State)
    requires s.worker == Recovering(None) && s.q.processing != []
    ensures RecoverPushStep(RecoverPopStep(s)) == s.(q := RecoverOne(s.q))
  {
  }

  lemma RecoverTwoSteps(s: State, maxRetries: int)
    requires s.worker == Recovering(None) && s.q.processing != []
    ensures Apply(Apply(s, RecoverPop, maxRetries), RecoverPush, maxRetries) == s.(q := RecoverOne(s.q))
  {
    RecoverOneIsTwoSteps(s);
    assert Apply(s, RecoverPop, maxRetries) == RecoverPopStep(s);
  }

  lemma RecoveryEnds(s: State, maxRetries: int)
    requires s.worker == Recovering(None) && s.q.processing == []
    ensures Run(s, [RecoverPop], maxRetries) == s.(worker := Idle)
  {
    assert [RecoverPop][1..] == [];
    assert Apply(s, RecoverPop, maxRetries) == RecoverPopStep(s);
  }

  /** Restart recovery that nothing interrupts does exactly what the operation run alone does. */
  lemma {:induction false} RecoveryIsARun(s: State, maxRetries: int)
    requires s.worker == Recovering(None)
    ensures Run(s, RecoverySteps(|s.q.processing|), maxRetries) == s.(q := RecoverAll(s.q), worker := Idle)
    decreases |s.q.processing|
  {
    if s.q.processing == [] {
      RecoveryEnds(s, maxRetries);
    } else {
      RunMore(s, RecoverPop, RecoverPush, RecoverySteps(|s.q.processing| - 1), maxRetries);
      RecoverTwoSteps(s, maxRetries);
      RecoveryIsARun(s.(q := RecoverOne(s.q)), maxRetries);
    }
  }
}
