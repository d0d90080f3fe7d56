/** The order pipeline as atomic Redis steps: any number of enqueuers and pending-list sweepers,
    one worker that also sweeps when idle, and their failures, in every interleaving. */
module Protocol {
  import opened Orders
  import opened OrderQueue

  // ----- state

  /** What the worker's final acknowledgement will mean for the payload it removes. */
  datatype Verdict = Done | Superseded | Abandoned

  /** Program points of worker_loop between two Redis commands. `copied` says that the exception
      handler or enqueue_pending has already pushed a copy of the order in hand; while the worker
      sweeps, sweeper i runs in its process. */
  datatype Worker =
    | Down
    | Recovering(hand: Option<Payload>)
    | Idle
    | Sweeping(i: nat)
    | TryBuy
    | Garbage(raw: Payload, fromSell: bool)
    | Working(h: Held, copied: bool)
    | Failing(h: Held, copied: bool)
    | Retrying(h: Held, copied: bool)
    | Restoring(h: Held, copied: bool)
    | Acking(h: Held, verdict: Verdict, exiting: bool)

  /** A flush or purge: how many turns its counting loop has left, and the popped payload. */
  datatype Sweeper = Sweeper(sweep: Sweep, now: int, ttl: int, left: nat, hand: Option<Payload>)

  /** The lists and processes, followed by a record of what has happened since the start. */
  datatype State = State(
    q: Queues,
    worker: Worker,
    sweepers: seq<Sweeper>,
    accepted: multiset<Order>,    // orders taken in
    copied: multiset<Order>,      // copies pushed by retry and re-pending
    superseded: multiset<Order>,  // originals acknowledged after a copy was pushed
    done: multiset<Order>,        // terminal outcomes: executed, skipped, retries exhausted, expired
    lost: multiset<Order>,        // orders that left the lists without any of these
    entered: multiset<Payload>,   // payloads pushed on the pending list by enqueue_pending
    activated: multiset<Payload>, // payloads a flush moved to an active list
    dropped: multiset<Payload>,   // payloads a sweep removed as expired or undecodable
    spilled: multiset<Payload>)   // payloads a sweeper died with

  datatype Step =
    | Accept(o: Order)
    | AcceptPending(o: Order, now: int)
    | StartSweep(sweep: Sweep, now: int, ttl: int)
    | Pop(i: nat)
    | Place(i: nat)
    | Abort(i: nat)
    | StartWorker
    | BeginSweep(sweep: Sweep, now: int, ttl: int)
    | EndSweep
    | RecoverPop
    | RecoverPush
    | TakeSell(replied: bool)
    | TakeBuy(replied: bool)
    | Discard
    | Repend(now: int)
    | Conclude
    | Raise
    | RetryPush
    | Restore(raised: bool, applied: bool)
    | Ack(applied: bool)
    | Crash
    | Shutdown

  // ----- identity of an order

  /** The order without the entries that retry and re-pending rewrite. */
  function Core(o: Order): Order {
    o.(retryCount := 0, firstQueued := Absent, queued := Absent)
  }

  /** The BUY or SELL order a payload stands for, if any. */
  function Trade(p: Payload): multiset<Order> {
    if p.Json? && p.order.action != Other then multiset{Core(p.order)} else multiset{}
  }

  function Stands(p: Payload, c: Order): nat {
    if p.Json? && p.order.action != Other && Core(p.order) == c then 1 else 0
  }

  /** How many of the payloads stand for the order c. */
  function Count(list: seq<Payload>, c: Order): nat {
    if list == [] then 0 else Stands(list[0], c) + Count(list[1..], c)
  }

  function ListCount(q: Queues, c: Order): nat {
    Count(q.sell, c) + Count(q.buy, c) + Count(q.pending, c) + Count(q.processing, c)
  }

  function InHand(hand: Option<Payload>): seq<Payload> {
    if hand.Some? then [hand.value] else []
  }

  function HandTrade(hand: Option<Payload>): multiset<Order> {
    if hand.Some? then Trade(hand.value) else multiset{}
  }

  function HandStands(hand: Option<Payload>, c: Order): nat {
    if hand.Some? then Stands(hand.value, c) else 0
  }

  function HandCount(ss: seq<Sweeper>, c: Order): nat {
    if ss == [] then 0 else HandStands(ss[0].hand, c) + HandCount(ss[1..], c)
  }

  function WorkerHand(w: Worker, c: Order): nat {
    if w.Recovering? then HandStands(w.hand, c) else 0
  }

  /** How many copies of the order c still exist somewhere. */
  function Live(s: State, c: Order): nat {
    ListCount(s.q, c) + HandCount(s.sweepers, c) + WorkerHand(s.worker, c)
  }

  // ----- steps

  function Trades(list: seq<Payload>): multiset<Order> {
    if list == [] then multiset{} else Trade(list[0]) + Trades(list[1..])
  }

  function Init(q: Queues): State {
    State(q, Down, [], Trades(q.sell) + Trades(q.buy) + Trades(q.pending) + Trades(q.processing),
          multiset{}, multiset{}, multiset{}, multiset{},
          multiset(q.pending), multiset{}, multiset{}, multiset{})
  }

  function Push(s: State, side: Side, p: Payload): State {
    s.(q := LpushSide(s.q, side, p))
  }

  function AcceptStep(s: State, o: Order): State {
    var p := Json(o);
    if o.action == Other then s
    else Push(s, o.action, p).(accepted := s.accepted + Trade(p))
  }

  function PushPending(s: State, p: Payload): State {
    s.(q := s.q.(pending := [p] + s.q.pending), entered := s.entered + multiset{p})
  }

  function AcceptPendingStep(s: State, o: Order, now: int): State {
    var p := Json(EnterPending(o, now));
    PushPending(s, p).(accepted := s.accepted + Trade(p))
  }

  function PopStep(s: State, i: nat): State
    requires i < |s.sweepers|
  {
    var m := s.sweepers[i];
    if m.hand.Some? || m.left == 0 then s
    else if s.q.pending == [] then s.(sweepers := s.sweepers[i := m.(left := 0)])
    else
      var n := |s.q.pending| - 1;
      s.(q := s.q.(pending := s.q.pending[..n]),
         sweepers := s.sweepers[i := m.(left := m.left - 1, hand := Some(s.q.pending[n]))])
  }

  function PlaceAs(s: State, i: nat, fate: Fate): State
    requires i < |s.sweepers| && s.sweepers[i].hand.Some?
  {
    var m := s.sweepers[i];
    var p := m.hand.value;
    var s' := s.(sweepers := s.sweepers[i := m.(hand := None)]);
    match fate
    case Drop => s'.(dropped := s.dropped + multiset{p})
    case Expire => s'.(dropped := s.dropped + multiset{p}, done := s.done + Trade(p))
    case Keep => s'.(q := s.q.(pending := [p] + s.q.pending))
    case ToSell => Push(s', Sell, p).(activated := s.activated + multiset{p})
    case ToBuy => Push(s', Buy, p).(activated := s.activated + multiset{p})
  }

  function PlaceStep(s: State, i: nat): State
    requires i < |s.sweepers| && s.sweepers[i].hand.Some?
  {
    var m := s.sweepers[i];
    PlaceAs(s, i, FateOf(m.hand.value, m.sweep, m.now, m.ttl))
  }

  /** A sweep ends with what it has popped still in hand. */
  function CutShort(s: State, i: nat): State
    requires i < |s.sweepers|
  {
    var m := s.sweepers[i];
    s.(sweepers := s.sweepers[i := m.(left := 0, hand := None)],
       lost := s.lost + HandTrade(m.hand), spilled := s.spilled + multiset(InHand(m.hand)))
  }

  /** The sweeper's process dies, or a Redis command of the sweep raises; the worker survives
      the exception. */
  function AbortStep(s: State, i: nat): State
    requires i < |s.sweepers|
  {
    var s' := CutShort(s, i);
    if s.worker == Sweeping(i) then s'.(worker := Idle) else s'
  }

  /** The idle worker purges, or flushes an open market. */
  function BeginSweepStep(s: State, m: Sweeper): State {
    if s.worker.Idle? then s.(sweepers := s.sweepers + [m], worker := Sweeping(|s.sweepers|)) else s
  }

  function EndSweepStep(s: State): State {
    if s.worker.Sweeping? && s.worker.i < |s.sweepers|
       && s.sweepers[s.worker.i].left == 0 && s.sweepers[s.worker.i].hand.None?
    then s.(worker := Idle)
    else s
  }

  function RecoverPopStep(s: State): State {
    if s.worker != Recovering(None) then s
    else if s.q.processing == [] then s.(worker := Idle)
    else
      var n := |s.q.processing| - 1;
      s.(q := s.q.(processing := s.q.processing[..n]), worker := Recovering(Some(s.q.processing[n])))
  }

  function RecoverPushStep(s: State): State {
    if !s.worker.Recovering? || s.worker.hand.None? then s
    else
      var p := s.worker.hand.value;
      var s' := s.(worker := Recovering(None));
      if p.Json? then Push(s', p.order.action, p) else s'
  }

  /** RPOPLPUSH; when the reply is lost the payload stays in the processing list. */
  function TakeStep(s: State, source: Side, replied: bool): State
    requires source != Other
  {
    if (if source == Sell then s.q.sell else s.q.buy) == [] then
      s.(worker := if source == Sell then TryBuy else Idle)
    else
      var q := Taken(s.q, source);
      var p := q.processing[0];
      s.(q := q,
         worker := if !replied then Idle
                   else if p.Json? then Working(Held(p, source), false)
                   else Garbage(p, source == Sell))
  }

  function DiscardStep(s: State): State {
    if !s.worker.Garbage? then s
    else s.(q := s.q.(processing := Lrem(s.q.processing, s.worker.raw)),
            worker := if s.worker.fromSell then TryBuy else Idle)
  }

  /** enqueue_pending inside process_order */
  function RependStep(s: State, now: int): State {
    if !s.worker.Working? || s.worker.copied || !s.worker.h.raw.Json? then s
    else
      var p := Json(EnterPending(s.worker.h.raw.order, now));
      PushPending(s, p).(copied := s.copied + Trade(p), worker := Working(s.worker.h, true))
  }

  /** process_order returned, or the handler's bookkeeping went through: acknowledge next. */
  function ConcludeStep(s: State): State {
    if s.worker.Working? || s.worker.Retrying?
    then s.(worker := Acking(s.worker.h, if s.worker.copied then Superseded else Done, false))
    else s
  }

  /** An exception: in process_order, in the retry push, or in the bookkeeping after it. */
  function RaiseStep(s: State, maxRetries: int): State {
    var w := s.worker;
    if w.Working? then s.(worker := Failing(w.h, w.copied))
    else if (w.Failing? && w.h.raw.Json? && w.h.raw.order.retryCount < maxRetries) || w.Retrying?
    then s.(worker := Restoring(w.h, w.copied))
    else s
  }

  /** The exception handler: push the order with its count raised, or give up. */
  function RetryPushStep(s: State, maxRetries: int): State {
    if !s.worker.Failing? || !s.worker.h.raw.Json? then s
    else
      var w, o := s.worker, s.worker.h.raw.order;
      if o.retryCount >= maxRetries then
        s.(worker := Acking(w.h, if w.copied then Superseded else Done, false))
      else
        var p := Json(Retried(o));
        Push(s, o.action, p).(copied := s.copied + Trade(p),
          worker := Retrying(w.h, w.copied || o.action != Other))
  }

  /** requeue_processing_order; when it raises, the order is acknowledged all the same. */
  function RestoreStep(s: State, raised: bool, applied: bool): State {
    if !s.worker.Restoring? then s
    else
      var w := s.worker;
      var moved := if raised && !applied then s else s.(q := Restored(s.q, w.h));
      if !raised then moved.(worker := Idle)
      else if w.copied then moved.(worker := Acking(w.h, Superseded, false))
      else moved.(worker := Acking(w.h, Abandoned, false))
  }

  function AckStep(s: State, applied: bool): State {
    if !s.worker.Acking? then s
    else
      var w := s.worker;
      var s' := s.(worker := if w.exiting then Down else Idle);
      if !applied || w.h.raw !in s.q.processing then s'
      else
        var t := Trade(w.h.raw);
        var s'' := s'.(q := s.q.(processing := Lrem(s.q.processing, w.h.raw)));
        match w.verdict
        case Done => s''.(done := s.done + t)
        case Superseded => s''.(superseded := s.superseded + t)
        case Abandoned => s''.(lost := s.lost + t)
  }

  /** Death of the worker process, and of the sweep it was running. */
  function CrashStep(s: State): State {
    if s.worker.Recovering? && s.worker.hand.Some?
    then s.(worker := Down, lost := s.lost + Trade(s.worker.hand.value))
    else if s.worker.Sweeping? && s.worker.i < |s.sweepers| then CutShort(s, s.worker.i).(worker := Down)
    else s.(worker := Down)
  }

  /** The worker is between taking an order and its final acknowledgement. */
  predicate HasOrder(w: Worker) {
    w.Working? || w.Failing? || w.Retrying? || w.Restoring?
  }

  /** SystemExit or cancellation: the finally clause still acknowledges the order in hand. */
  function ShutdownStep(s: State): State {
    var w := s.worker;
    if HasOrder(w) then s.(worker := Acking(w.h, if w.copied then Superseded else Abandoned, true))
    else CrashStep(s)
  }

  function WorkerStep(s: State, step: Step, maxRetries: int): State {
    match step
    case StartWorker => if s.worker.Down? then s.(worker := Recovering(None)) else s
    case BeginSweep(sweep, now, ttl) => BeginSweepStep(s, Sweeper(sweep, now, ttl, |s.q.pending|, None))
    case EndSweep => EndSweepStep(s)
    case RecoverPop => RecoverPopStep(s)
    case RecoverPush => RecoverPushStep(s)
    case TakeSell(replied) => if s.worker.Idle? then TakeStep(s, Sell, replied) else s
    case TakeBuy(replied) => if s.worker.TryBuy? then TakeStep(s, Buy, replied) else s
    case Discard => DiscardStep(s)
    case Repend(now) => RependStep(s, now)
    case Conclude => ConcludeStep(s)
    case Raise => RaiseStep(s, maxRetries)
    case RetryPush => RetryPushStep(s, maxRetries)
    case Restore(raised, applied) => RestoreStep(s, raised, applied)
    case Ack(applied) => AckStep(s, applied)
    case Crash => CrashStep(s)
    case Shutdown => ShutdownStep(s)
    case _ => s
  }

  function Apply(s: State, step: Step, maxRetries: int): State {
    match step
    case Accept(o) => AcceptStep(s, o)
    case AcceptPending(o, now) => AcceptPendingStep(s, o, now)
    case StartSweep(sweep, now, ttl) =>
      s.(sweepers := s.sweepers + [Sweeper(sweep, now, ttl, |s.q.pending|, None)])
    case Pop(i) => if i < |s.sweepers| then PopStep(s, i) else s
    case Place(i) => if i < |s.sweepers| && s.sweepers[i].hand.Some? then PlaceStep(s, i) else s
    case Abort(i) => if i < |s.sweepers| then AbortStep(s, i) else s
    case _ => WorkerStep(s, step, maxRetries)
  }

  function Run(s: State, steps: seq<Step>, maxRetries: int): State
    decreases |steps|
  {
    if steps == [] then s else Run(Apply(s, steps[0], maxRetries), steps[1..], maxRetries)
  }

  /** Steps of processes other than the worker. */
  predicate Outside(step: Step) {
    step.Accept? || step.AcceptPending? || step.StartSweep? || step.Pop? || step.Place? || step.Abort?
  }

  // ----- runs taken apart

  lemma ApplyAbort(s: State, i: nat, maxRetries: int)
    ensures Apply(s, Abort(i), maxRetries) == if i < |s.sweepers| then AbortStep(s, i) else s
  {
    hide AbortStep;
  }

  lemma ApplyPop(s: State, i: nat, maxRetries: int)
    ensures Apply(s, Pop(i), maxRetries) == if i < |s.sweepers| then PopStep(s, i) else s
  {
    hide PopStep;
  }

  lemma ApplyPlace(s: State, i: nat, maxRetries: int)
    ensures Apply(s, Place(i), maxRetries)
         == if i < |s.sweepers| && s.sweepers[i].hand.Some? then PlaceStep(s, i) else s
  {
    hide PlaceStep;
  }

  lemma ApplyWorker(s: State, step: Step, maxRetries: int)
    ensures !Outside(step) ==> Apply(s, step, maxRetries) == WorkerStep(s, step, maxRetries)
  {
    hide WorkerStep;
  }

  lemma ApplyAck(s: State, applied: bool, maxRetries: int)
    ensures Apply(s, Ack(applied), maxRetries) == AckStep(s, applied)
  {
    hide AckStep;
  }

  lemma ApplyCrash(s: State, maxRetries: int)
    ensures Apply(s, Crash, maxRetries) == CrashStep(s) && Apply(s, Shutdown, maxRetries) == ShutdownStep(s)
  {
    hide CrashStep, ShutdownStep;
  }

  lemma RunFirst(s: State, x: Step, rest: seq<Step>, maxRetries: int)
    ensures Run(s, [x] + rest, maxRetries) == Run(Apply(s, x, maxRetries), rest, maxRetries)
  {
    hide Apply;
    assert ([x] + rest)[1..] == rest;
  }

  lemma RunTwo(s: State, x: Step, y: Step, maxRetries: int)
    ensures Run(s, [x, y], maxRetries) == Apply(Apply(s, x, maxRetries), y, maxRetries)
  {
    hide Apply;
    assert [x, y][1..] == [y] && [y][1..] == [];
    assert Run(Apply(s, x, maxRetries), [y], maxRetries) == Apply(Apply(s, x, maxRetries), y, maxRetries);
  }

  lemma RunMore(s: State, x: Step, y: Step, rest: seq<Step>, maxRetries: int)
    ensures Run(s, [x, y] + rest, maxRetries) == Run(Apply(Apply(s, x, maxRetries), y, maxRetries), rest, maxRetries)
  {
    hide Apply;
    assert ([x, y] + rest)[1..] == [y] + rest && ([y] + rest)[1..] == rest;
    assert Run(Apply(s, x, maxRetries), [y] + rest, maxRetries)
        == Run(Apply(Apply(s, x, maxRetries), y, maxRetries), rest, maxRetries);
  }

  // ----- invariants

  /** Nothing appears or disappears without being on record. */
  predicate Balanced(s: State, c: Order) {
    s.accepted[c] + s.copied[c] == Live(s, c) + s.done[c] + s.superseded[c] + s.lost[c]
  }

  /** The worker has pushed a copy and is still to remove the original. */
  function Owed(w: Worker, c: Order): nat {
    if HasOrder(w) && w.copied then Stands(w.h.raw, c)
    else if w.Acking? && w.verdict == Superseded then Stands(w.h.raw, c)
    else 0
  }

  /** Every original that is acknowledged as superseded had a copy of its own pushed first. */
  predicate Covered(s: State, c: Order) {
    s.superseded[c] + Owed(s.worker, c) <= s.copied[c]
  }

  predicate HoldsItsOrder(s: State) {
    var w := s.worker;
    && (HasOrder(w) ==>
          w.h.raw in s.q.processing && w.h.raw.Json? && w.h.source != Other)
    && (w.Garbage? ==> w.raw in s.q.processing && w.raw.Invalid?)
  }

  predicate Inv(s: State, c: Order) {
    Balanced(s, c) && Covered(s, c) && HoldsItsOrder(s)
  }

  // ----- bookkeeping lemmas

  lemma {:induction false} CountPlus(a: seq<Payload>, b: seq<Payload>, c: Order)
    ensures Count(a + b, c) == Count(a, c) + Count(b, c)
  {
    if a == [] {
      assert a + b == b;
    } else {
      CountPlus(a[1..], b, c);
      assert (a + b)[1..] == a[1..] + b;
    }
  }

  lemma CountPushed(p: Payload, list: seq<Payload>, c: Order)
    ensures Count([p] + list, c) == Stands(p, c) + Count(list, c)
  {
  }

  lemma CountPopped(list: seq<Payload>, c: Order)
    requires list != []
    ensures var n := |list| - 1; Count(list, c) == Count(list[..n], c) + Stands(list[n], c)
  {
    var n := |list| - 1;
    assert list == list[..n] + [list[n]];
    CountPlus(list[..n], [list[n]], c);
    assert [list[n]][1..] == [];
  }

  lemma {:induction false} CountRemoved(list: seq<Payload>, p: Payload, c: Order)
    requires p in list
    ensures Count(list, c) == Count(Lrem(list, p), c) + Stands(p, c)
  {
    if list[0] != p {
      CountRemoved(list[1..], p, c);
      CountPushed(list[0], Lrem(list[1..], p), c);
    }
  }

  lemma {:induction false} TradesCount(list: seq<Payload>, c: Order)
    ensures Trades(list)[c] == Count(list, c)
  {
    if list != [] {
      TradesCount(list[1..], c);
    }
  }

  lemma {:induction false} HandsUpdated(ss: seq<Sweeper>, i: nat, m: Sweeper, c: Order)
    requires i < |ss|
    ensures HandCount(ss[i := m], c) + HandStands(ss[i].hand, c) == HandCount(ss, c) + HandStands(m.hand, c)
  {
    if i == 0 {
      assert ss[0 := m][1..] == ss[1..];
    } else {
      HandsUpdated(ss[1..], i - 1, m, c);
      assert ss[i := m][1..] == ss[1..][i - 1 := m];
    }
  }

  lemma {:induction false} HandsAppended(ss: seq<Sweeper>, m: Sweeper, c: Order)
    requires m.hand.None?
    ensures HandCount(ss + [m], c) == HandCount(ss, c)
  {
    if ss == [] {
      assert [] + [m] == [m];
      assert [m][1..] == [];
    } else {
      HandsAppended(ss[1..], m, c);
      assert (ss + [m])[1..] == ss[1..] + [m];
    }
  }

  lemma SidePushed(q: Queues, side: Side, p: Payload, c: Order)
    ensures ListCount(LpushSide(q, side, p), c) == ListCount(q, c) + if side != Other then Stands(p, c) else 0
  {
  }

  // ----- each step keeps the invariant

  lemma AcceptKeeps(s: State, c: Order, o: Order)
    requires Inv(s, c)
    ensures Inv(AcceptStep(s, o), c)
  {
    SidePushed(s.q, o.action, Json(o), c);
  }

  lemma AcceptPendingKeeps(s: State, c: Order, o: Order, now: int)
    requires Inv(s, c)
    ensures Inv(AcceptPendingStep(s, o, now), c)
  {
    CountPushed(Json(EnterPending(o, now)), s.q.pending, c);
  }

  lemma PopKeeps(s: State, c: Order, i: nat)
    requires Inv(s, c) && i < |s.sweepers|
    ensures Inv(PopStep(s, i), c)
  {
    var m := s.sweepers[i];
    HandsUpdated(s.sweepers, i, m.(left := 0), c);
    if s.q.pending != [] && m.left != 0 {
      var n := |s.q.pending| - 1;
      CountPopped(s.q.pending, c);
      HandsUpdated(s.sweepers, i, m.(left := m.left - 1, hand := Some(s.q.pending[n])), c);
    }
  }

  lemma PlaceKeeps(s: State, c: Order, i: nat, fate: Fate)
    requires Inv(s, c) && i < |s.sweepers| && s.sweepers[i].hand.Some?
    requires fate == Drop ==> s.sweepers[i].hand.value.Invalid?
    ensures Inv(PlaceAs(s, i, fate), c)
  {
    var m := s.sweepers[i];
    var p := m.hand.value;
    HandsUpdated(s.sweepers, i, m.(hand := None), c);
    CountPushed(p, s.q.pending, c);
    SidePushed(s.q, Sell, p, c);
    SidePushed(s.q, Buy, p, c);
  }

  lemma CutShortKeeps(s: State, c: Order, i: nat)
    requires Inv(s, c) && i < |s.sweepers|
    ensures Inv(CutShort(s, i), c)
  {
    var s', m := CutShort(s, i), s.sweepers[i];
    HandsUpdated(s.sweepers, i, m.(left := 0, hand := None), c);
    assert s'.lost[c] == s.lost[c] + HandStands(m.hand, c);
  }

  /** A worker with nothing popped in its memory can stop at any point. */
  lemma RestKeeps(s: State, c: Order, w: Worker)
    requires Inv(s, c) && WorkerHand(s.worker, c) == 0 && (w.Idle? || w.Down?)
    ensures Inv(s.(worker := w), c)
  {
  }

  lemma AbortKeeps(s: State, c: Order, i: nat)
    requires Inv(s, c) && i < |s.sweepers|
    ensures Inv(AbortStep(s, i), c)
  {
    CutShortKeeps(s, c, i);
    if s.worker == Sweeping(i) {
      RestKeeps(CutShort(s, i), c, Idle);
    }
  }

  lemma BeginSweepKeeps(s: State, c: Order, m: Sweeper)
    requires Inv(s, c) && m.hand.None?
    ensures Inv(BeginSweepStep(s, m), c)
  {
    HandsAppended(s.sweepers, m, c);
  }

  lemma RecoverPopKeeps(s: State, c: Order)
    requires Inv(s, c)
    ensures Inv(RecoverPopStep(s), c)
  {
    if s.worker == Recovering(None) && s.q.processing != [] {
      CountPopped(s.q.processing, c);
    }
  }

  lemma RecoverPushKeeps(s: State, c: Order)
    requires Inv(s, c)
    ensures Inv(RecoverPushStep(s), c)
  {
    if s.worker.Recovering? && s.worker.hand.Some? {
      var p := s.worker.hand.value;
      if p.Json? {
        SidePushed(s.q, p.order.action, p, c);
      }
    }
  }

  lemma TakenCount(q: Queues, source: Side, c: Order)
    requires if source == Sell then q.sell != [] else source == Buy && q.buy != []
    ensures ListCount(Taken(q, source), c) == ListCount(q, c)
  {
    var list := if source == Sell then q.sell else q.buy;
    CountPopped(list, c);
    CountPushed(list[|list| - 1], q.processing, c);
  }

  lemma RestoredCount(q: Queues, h: Held, c: Order)
    requires h.raw in q.processing && h.source != Other
    ensures ListCount(Restored(q, h), c) == ListCount(q, c)
  {
    CountRemoved(q.processing, h.raw, c);
    SidePushed(q.(processing := Lrem(q.processing, h.raw)), h.source, h.raw, c);
  }

  lemma TakeKeeps(s: State, c: Order, source: Side, replied: bool)
    requires Inv(s, c) && (s.worker.Idle? || s.worker.TryBuy?) && source != Other
    ensures Inv(TakeStep(s, source, replied), c)
  {
    var s' := TakeStep(s, source, replied);
    if (if source == Sell then s.q.sell else s.q.buy) == [] {
      assert s'.q == s.q && !s'.worker.Working?;
    } else {
      TakenCount(s.q, source, c);
      assert s'.q == Taken(s.q, source);
      assert s'.q.processing[0] in s'.q.processing;
    }
    assert !s'.worker.Acking? && !s'.worker.Recovering?;
    assert s'.worker.Working? ==> !s'.worker.copied;
    assert Balanced(s', c);
  }

  lemma DiscardKeeps(s: State, c: Order)
    requires Inv(s, c)
    ensures Inv(DiscardStep(s), c)
  {
    if s.worker.Garbage? {
      CountRemoved(s.q.processing, s.worker.raw, c);
    }
  }

  lemma RependKeeps(s: State, c: Order, now: int)
    requires Inv(s, c)
    ensures Inv(RependStep(s, now), c)
  {
    if s.worker.Working? && s.worker.h.raw.Json? {
      var o := s.worker.h.raw.order;
      CountPushed(Json(EnterPending(o, now)), s.q.pending, c);
    }
  }

  lemma RetriedTrade(o: Order)
    ensures Trade(Json(Retried(o))) == Trade(Json(o))
    ensures o.action == Other ==> Trade(Json(o)) == multiset{}
  {
  }

  lemma RetryPushKeeps(s: State, c: Order, maxRetries: int)
    requires Inv(s, c) && s.worker.Failing?
    ensures Inv(RetryPushStep(s, maxRetries), c)
  {
    var o := s.worker.h.raw.order;
    if o.retryCount < maxRetries {
      var p := Json(Retried(o));
      SidePushed(s.q, o.action, p, c);
      RetriedTrade(o);
      var s' := RetryPushStep(s, maxRetries);
      assert s'.copied[c] == s.copied[c] + Stands(p, c);
      assert Live(s', c) == Live(s, c) + Stands(p, c);
      assert HoldsItsOrder(s');
    }
  }

  lemma RestoreKeeps(s: State, c: Order, raised: bool, applied: bool)
    requires Inv(s, c)
    ensures Inv(RestoreStep(s, raised, applied), c)
  {
    if s.worker.Restoring? {
      RestoredCount(s.q, s.worker.h, c);
    }
  }

  lemma TradeStands(p: Payload, c: Order)
    ensures Trade(p)[c] == Stands(p, c) && |Trade(p)| <= 1
  {
  }

  lemma AckedKeeps(s: State, c: Order)
    requires Inv(s, c) && s.worker.Acking? && s.worker.h.raw in s.q.processing
    ensures Inv(AckStep(s, true), c)
  {
    hide Count, Lrem, Core, HandCount, Stands;
    var s', p := AckStep(s, true), s.worker.h.raw;
    TradeStands(p, c);
    CountRemoved(s.q.processing, p, c);
    assert Live(s, c) == Live(s', c) + Stands(p, c);
  }

  lemma AckKeeps(s: State, c: Order, applied: bool)
    requires Inv(s, c) && s.worker.Acking?
    ensures Inv(AckStep(s, applied), c)
  {
    if applied && s.worker.h.raw in s.q.processing {
      AckedKeeps(s, c);
    } else {
      RestKeeps(s, c, if s.worker.exiting then Down else Idle);
    }
  }

  lemma ConcludeKeeps(s: State, c: Order)
    requires Inv(s, c)
    ensures Inv(ConcludeStep(s), c)
  {
  }

  lemma RaiseKeeps(s: State, c: Order, maxRetries: int)
    requires Inv(s, c)
    ensures Inv(RaiseStep(s, maxRetries), c)
  {
    var s' := RaiseStep(s, maxRetries);
    assert Owed(s'.worker, c) == Owed(s.worker, c) && Live(s', c) == Live(s, c);
  }

  lemma RecoveryCrashKeeps(s: State, c: Order)
    requires Inv(s, c) && s.worker.Recovering? && s.worker.hand.Some?
    ensures Inv(CrashStep(s), c)
  {
    TradeStands(s.worker.hand.value, c);
    var s' := CrashStep(s);
    assert s'.lost[c] == s.lost[c] + WorkerHand(s.worker, c) && Live(s', c) == Live(s, c) - WorkerHand(s.worker, c);
  }

  lemma CrashKeeps(s: State, c: Order)
    requires Inv(s, c)
    ensures Inv(CrashStep(s), c)
  {
    if s.worker.Recovering? && s.worker.hand.Some? {
      RecoveryCrashKeeps(s, c);
    } else if s.worker.Sweeping? && s.worker.i < |s.sweepers| {
      CutShortKeeps(s, c, s.worker.i);
      RestKeeps(CutShort(s, s.worker.i), c, Down);
    } else {
      RestKeeps(s, c, Down);
    }
  }

  lemma ShutdownKeeps(s: State, c: Order)
    requires Inv(s, c)
    ensures Inv(ShutdownStep(s), c)
  {
    var s', w := ShutdownStep(s), s.worker;
    if HasOrder(w) {
      assert Owed(s'.worker, c) == Owed(s.worker, c) && Live(s', c) == Live(s, c);
    } else {
      CrashKeeps(s, c);
    }
  }

  /** The steps by which the worker moves payloads, decides what becomes of the order in hand, and
      lets go of it. */
  predicate Moves(step: Step) {
    || step.BeginSweep? || step.EndSweep? || step.RecoverPop? || step.RecoverPush?
    || step.TakeSell? || step.TakeBuy? || step.Discard? || step.Repend?
  }

  predicate Decides(step: Step) {
    step.Conclude? || step.Raise? || step.RetryPush? || step.Restore?
  }

  predicate Ends(step: Step) {
    step.Ack? || step.Crash? || step.Shutdown?
  }

  lemma MovesKeep(s: State, c: Order, step: Step, maxRetries: int)
    requires Inv(s, c) && Moves(step)
    ensures Inv(WorkerStep(s, step, maxRetries), c)
  {
    match step
    case BeginSweep(sweep, now, ttl) => BeginSweepKeeps(s, c, Sweeper(sweep, now, ttl, |s.q.pending|, None));
    case EndSweep => if s.worker.Sweeping? { RestKeeps(s, c, Idle); }
    case RecoverPop => RecoverPopKeeps(s, c);
    case RecoverPush => RecoverPushKeeps(s, c);
    case TakeSell(replied) => if s.worker.Idle? { TakeKeeps(s, c, Sell, replied); }
    case TakeBuy(replied) => if s.worker.TryBuy? { TakeKeeps(s, c, Buy, replied); }
    case Discard => DiscardKeeps(s, c);
    case Repend(now) => RependKeeps(s, c, now);
  }

  lemma DecisionsKeep(s: State, c: Order, step: Step, maxRetries: int)
    requires Inv(s, c) && Decides(step)
    ensures Inv(WorkerStep(s, step, maxRetries), c)
  {
    match step
    case Conclude => ConcludeKeeps(s, c);
    case Raise => RaiseKeeps(s, c, maxRetries);
    case RetryPush => if s.worker.Failing? { RetryPushKeeps(s, c, maxRetries); }
    case Restore(raised, applied) => RestoreKeeps(s, c, raised, applied);
  }

  lemma EndsKeep(s: State, c: Order, step: Step, maxRetries: int)
    requires Inv(s, c) && Ends(step)
    ensures Inv(WorkerStep(s, step, maxRetries), c)
  {
    match step
    case Ack(applied) => if s.worker.Acking? { AckKeeps(s, c, applied); }
    case Crash => CrashKeeps(s, c);
    case Shutdown => ShutdownKeeps(s, c);
  }

  lemma WorkerKeepsInv(s: State, c: Order, step: Step, maxRetries: int)
    requires Inv(s, c)
    ensures Inv(WorkerStep(s, step, maxRetries), c)
  {
    if Ends(step) {
      EndsKeep(s, c, step, maxRetries);
    } else if Decides(step) {
      DecisionsKeep(s, c, step, maxRetries);
    } else if Moves(step) {
      MovesKeep(s, c, step, maxRetries);
    }
  }

  lemma OutsideKeepsInv(s: State, c: Order, step: Step, maxRetries: int)
    requires Inv(s, c) && Outside(step)
    ensures Inv(Apply(s, step, maxRetries), c)
  {
    match step
    case Accept(o) => AcceptKeeps(s, c, o);
    case AcceptPending(o, now) => AcceptPendingKeeps(s, c, o, now);
    case StartSweep(sweep, now, ttl) => HandsAppended(s.sweepers, Sweeper(sweep, now, ttl, |s.q.pending|, None), c);
    case Pop(i) => if i < |s.sweepers| { PopKeeps(s, c, i); }
    case Place(i) =>
      if i < |s.sweepers| && s.sweepers[i].hand.Some? {
        var m := s.sweepers[i];
        PlaceKeeps(s, c, i, FateOf(m.hand.value, m.sweep, m.now, m.ttl));
      }
    case Abort(i) => if i < |s.sweepers| { AbortKeeps(s, c, i); }
  }

  lemma StepKeepsInv(s: State, c: Order, step: Step, maxRetries: int)
    requires Inv(s, c)
    ensures Inv(Apply(s, step, maxRetries), c)
  {
    if Outside(step) {
      OutsideKeepsInv(s, c, step, maxRetries);
    } else {
      WorkerKeepsInv(s, c, step, maxRetries);
    }
  }

  lemma {:induction false} RunKeepsInv(s: State, c: Order, steps: seq<Step>, maxRetries: int)
    requires Inv(s, c)
    ensures Inv(Run(s, steps, maxRetries), c)
    decreases |steps|
  {
    if steps != [] {
      StepKeepsInv(s, c, steps[0], maxRetries);
      RunKeepsInv(Apply(s, steps[0], maxRetries), c, steps[1..], maxRetries);
    }
  }

  lemma InitInv(q: Queues, c: Order)
    ensures Inv(Init(q), c)
  {
    TradesCount(q.sell, c);
    TradesCount(q.buy, c);
    TradesCount(q.pending, c);
    TradesCount(q.processing, c);
  }

  /** In every interleaving each order taken in is still in a list or in a process's hand, has
      reached a terminal outcome, or is on record as lost. */
  lemma NoOrderVanishes(q: Queues, steps: seq<Step>, maxRetries: int, c: Order)
    ensures var s := Run(Init(q), steps, maxRetries);
      s.accepted[c] <= Live(s, c) + s.done[c] + s.lost[c]
  {
    InitInv(q, c);
    RunKeepsInv(Init(q), c, steps, maxRetries);
  }
}
