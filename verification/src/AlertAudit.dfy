/** The AlertLog row of one idempotency key, written by the webhook's background task and by status
    updates of the worker and of the scheduler's expiry sweeps, each in a database session of its own. */
module AlertAudit {
  import opened Orders

  datatype Flags = Flags(processed: bool, skipped: bool, reason: Option<string>, queued: bool, processedAt: Option<int>)

  datatype Row = Row(flags: Flags, rawPayload: string, sourceIp: string)

  /** The arguments of one mark_alert_status call, and its clock reading. */
  datatype Update = Update(processed: bool, skipped: bool, reason: Option<string>, queued: Option<bool>, now: int)

  function Fresh(rawPayload: string, sourceIp: string): Row {
    Row(Flags(false, false, None, true, None), rawPayload, sourceIp)
  }

  function Marked(f: Flags, u: Update): Flags {
    Flags(u.processed, u.skipped, u.reason,
          if u.queued.Some? then u.queued.value else f.queued,
          if u.processed then Some(u.now) else None)
  }

  /** A session's UPDATE carries only the columns whose value differs from the one it loaded. */
  function Flushed<T(==)>(stored: T, loaded: T, wanted: T): T {
    if wanted == loaded then stored else wanted
  }

  function Commit(stored: Row, loaded: Row, wanted: Row): Row {
    Row(Flags(Flushed(stored.flags.processed, loaded.flags.processed, wanted.flags.processed),
              Flushed(stored.flags.skipped, loaded.flags.skipped, wanted.flags.skipped),
              Flushed(stored.flags.reason, loaded.flags.reason, wanted.flags.reason),
              Flushed(stored.flags.queued, loaded.flags.queued, wanted.flags.queued),
              Flushed(stored.flags.processedAt, loaded.flags.processedAt, wanted.flags.processedAt)),
        Flushed(stored.rawPayload, loaded.rawPayload, wanted.rawPayload),
        Flushed(stored.sourceIp, loaded.sourceIp, wanted.sourceIp))
  }

  /** What the webhook's task makes of a row that is already there. */
  function Topped(r: Row, rawPayload: string, sourceIp: string): Row {
    Row(if r.flags.processed then r.flags else r.flags.(queued := true, skipped := false, reason := None),
        if r.rawPayload == "" then rawPayload else r.rawPayload,
        if r.sourceIp == "" then sourceIp else r.sourceIp)
  }

  /** Between the SELECT and the COMMIT of a session. */
  datatype Webhook = Waiting | Selected(loaded: Option<Row>) | Finished

  /** One marking session of the worker or the scheduler. */
  datatype Marker = Resting | Marking(u: Update, found: Option<Row>, mayCreate: bool) | Again(u: Update)

  datatype State = State(row: Option<Row>, webhook: Webhook, markers: seq<Marker>, last: Option<Update>)

  datatype Step =
    | WebhookSelect
    | WebhookCommit(rawPayload: string, sourceIp: string)
    | WebhookFail
    | MarkSelect(i: nat, u: Update)
    | MarkReselect(i: nat)
    | MarkCommit(i: nat, sourceIp: string)
    | MarkFail(i: nat)

  function WebhookCommitStep(s: State, raw: string, ip: string): State
    requires s.webhook.Selected?
  {
    var s' := s.(webhook := Finished);
    match s.webhook.loaded
    case None => if s.row.None? then s'.(row := Some(Fresh(raw, ip))) else s'  // else: IntegrityError, logged
    case Some(loaded) =>
      if s.row.None? then s' else s'.(row := Some(Commit(s.row.value, loaded, Topped(loaded, raw, ip))))
  }

  function MarkCommitStep(s: State, i: nat, ip: string): State
    requires i < |s.markers| && s.markers[i].Marking?
  {
    var u := s.markers[i].u;
    var resting := s.markers[i := Resting];
    match s.markers[i].found
    case Some(loaded) =>
      if s.row.None? then s.(markers := resting)
      else s.(row := Some(Commit(s.row.value, loaded, loaded.(flags := Marked(loaded.flags, u)))),
              markers := resting, last := Some(u))
    case None =>
      if !s.markers[i].mayCreate then s.(markers := resting)
      else if s.row.Some? then s.(markers := s.markers[i := Again(u)])  // IntegrityError: retry as an update
      else
        var created := Fresh("", ip);
        s.(row := Some(created.(flags := Marked(created.flags, u))), markers := resting, last := Some(u))
  }

  function Apply(s: State, step: Step): State {
    match step
    case WebhookSelect => if s.webhook.Waiting? then s.(webhook := Selected(s.row)) else s
    case WebhookCommit(raw, ip) => if s.webhook.Selected? then WebhookCommitStep(s, raw, ip) else s
    case WebhookFail => s.(webhook := Finished)
    case MarkSelect(i, u) =>
      if i < |s.markers| && s.markers[i].Resting? then s.(markers := s.markers[i := Marking(u, s.row, true)]) else s
    case MarkReselect(i) =>
      if i < |s.markers| && s.markers[i].Again?
      then s.(markers := s.markers[i := Marking(s.markers[i].u, s.row, false)])
      else s
    case MarkCommit(i, ip) => if i < |s.markers| && s.markers[i].Marking? then MarkCommitStep(s, i, ip) else s
    case MarkFail(i) => if i < |s.markers| then s.(markers := s.markers[i := Resting]) else s
  }

  function Run(s: State, steps: seq<Step>): State
    decreases |steps|
  {
    if steps == [] then s else Run(Apply(s, steps[0]), steps[1..])
  }

  /** No row yet, and n sessions that may mark it. */
  function Start(n: nat): State {
    State(None, Waiting, seq(n, _ => Resting), None)
  }

  /** The updates that worker_loop and the expiry sweeps make: an order that is not processed is
      always put back as queued, not skipped, without a reason. */
  predicate KnownUpdate(u: Update) {
    u.queued.Some? && (u.processed || (!u.skipped && u.reason.None? && u.queued == Some(true)))
  }

  predicate KnownStep(step: Step) {
    step.MarkSelect? ==> KnownUpdate(step.u)
  }

  /** When a row that carries the update was processed, if it was. */
  function ProcessedAt(u: Update): Option<int> {
    if u.processed then Some(u.now) else None
  }

  /** The row says what the update said. */
  predicate Carries(row: Option<Row>, u: Update) {
    row.Some? && var f := row.value.flags;
      && f.processed == u.processed && f.skipped == u.skipped && f.reason == u.reason
      && (u.queued.Some? ==> f.queued == u.queued.value) && f.processedAt == ProcessedAt(u)
  }

  /** The row says that the order is queued and nothing else happened to it. */
  predicate Untouched(f: Flags) {
    f.queued && !f.processed && !f.skipped && f.reason.None? && f.processedAt.None?
  }

  /** The row carries exactly the flags of the last update committed, or of none. */
  predicate CarriesLast(s: State) {
    match s.last
    case Some(u) => Carries(s.row, u)
    case None => s.row.Some? ==> Untouched(s.row.value.flags)
  }

  // ----- one commit

  /** A flag that the session does not write, since its value was the wanted one when it read the
      row, has been changed by another session in between. */
  predicate Overtaken(stored: Flags, loaded: Flags, u: Update) {
    || (stored.processed != loaded.processed == u.processed)
    || (stored.skipped != loaded.skipped == u.skipped)
    || (stored.reason != loaded.reason == u.reason)
    || (u.queued.Some? && stored.queued != loaded.queued == u.queued.value)
    || (stored.processedAt != loaded.processedAt == ProcessedAt(u))
  }

  /** A marking session leaves exactly the flags of its update if and only if it was not overtaken. */
  lemma CommitCarriesExactly(stored: Row, loaded: Row, u: Update)
    ensures Carries(Some(Commit(stored, loaded, loaded.(flags := Marked(loaded.flags, u)))), u)
        <==> !Overtaken(stored.flags, loaded.flags, u)
  {
    var f, was, now := Marked(loaded.flags, u), loaded.flags, stored.flags;
    var g := Commit(stored, loaded, loaded.(flags := f)).flags;
    assert g.processed == u.processed <==> !(now.processed != was.processed == f.processed);
    assert g.skipped == u.skipped <==> !(now.skipped != was.skipped == f.skipped);
    assert g.reason == u.reason <==> !(now.reason != was.reason == f.reason);
    assert g.processedAt == ProcessedAt(u) <==> !(now.processedAt != was.processedAt == f.processedAt);
  }

  predicate Pristine(f: Flags) {
    f.processed || (!f.skipped && f.reason.None? && f.queued)
  }

  /** On a row that is processed or pristine the webhook's session writes no flag. */
  lemma ToppingWritesNoFlag(stored: Row, loaded: Row, raw: string, ip: string)
    requires Pristine(loaded.flags)
    ensures Commit(stored, loaded, Topped(loaded, raw, ip)).flags == stored.flags
  {
  }

  // ----- runs

  predicate MarkerSound(row: Option<Row>, m: Marker) {
    && (m.Marking? ==> KnownUpdate(m.u) && (m.found.Some? ==> row.Some?) && (!m.mayCreate ==> m.found.Some?))
    && (m.Again? ==> KnownUpdate(m.u) && row.Some?)
  }

  predicate Inv(s: State) {
    && (s.row.Some? ==> Pristine(s.row.value.flags))
    && (s.webhook.Selected? && s.webhook.loaded.Some? ==> s.row.Some? && Pristine(s.webhook.loaded.value.flags))
    && (forall i :: 0 <= i < |s.markers| ==> MarkerSound(s.row, s.markers[i]))
    && CarriesLast(s)
  }

  /** The step commits a session that was overtaken. */
  predicate CommitsOvertaken(s: State, step: Step) {
    && step.MarkCommit? && step.i < |s.markers| && s.markers[step.i].Marking?
    && s.markers[step.i].found.Some? && s.row.Some?
    && Overtaken(s.row.value.flags, s.markers[step.i].found.value.flags, s.markers[step.i].u)
  }

  lemma MarkCommitKeeps(s: State, i: nat, ip: string)
    requires Inv(s) && i < |s.markers| && s.markers[i].Marking? && !CommitsOvertaken(s, MarkCommit(i, ip))
    ensures Inv(MarkCommitStep(s, i, ip))
  {
    if s.markers[i].found.Some? {
      CommitCarriesExactly(s.row.value, s.markers[i].found.value, s.markers[i].u);
    }
  }

  lemma WebhookCommitKeeps(s: State, raw: string, ip: string)
    requires Inv(s) && s.webhook.Selected?
    ensures Inv(WebhookCommitStep(s, raw, ip))
    ensures s.row.Some? ==>
      WebhookCommitStep(s, raw, ip).row.Some? && WebhookCommitStep(s, raw, ip).row.value.flags == s.row.value.flags
  {
    if s.webhook.loaded.Some? {
      ToppingWritesNoFlag(s.row.value, s.webhook.loaded.value, raw, ip);
    }
  }

  lemma StepKeepsInv(s: State, step: Step)
    requires Inv(s) && KnownStep(step) && !CommitsOvertaken(s, step)
    ensures Inv(Apply(s, step))
  {
    match step
    case WebhookCommit(raw, ip) => if s.webhook.Selected? { WebhookCommitKeeps(s, raw, ip); }
    case MarkCommit(i, ip) => if i < |s.markers| && s.markers[i].Marking? { MarkCommitKeeps(s, i, ip); }
    case _ =>
  }

  lemma OvertakenIsNotCarried(s: State, step: Step)
    requires CommitsOvertaken(s, step)
    ensures !CarriesLast(Apply(s, step))
  {
    CommitCarriesExactly(s.row.value, s.markers[step.i].found.value, s.markers[step.i].u);
  }

  predicate CarriedThroughout(s: State, steps: seq<Step>)
    decreases |steps|
  {
    CarriesLast(s) && (steps != [] ==> CarriedThroughout(Apply(s, steps[0]), steps[1..]))
  }

  predicate NeverOvertaken(s: State, steps: seq<Step>)
    decreases |steps|
  {
    steps != [] ==> !CommitsOvertaken(s, steps[0]) && NeverOvertaken(Apply(s, steps[0]), steps[1..])
  }

  lemma {:induction false} CarriedExactly(s: State, steps: seq<Step>)
    requires Inv(s) && forall i :: 0 <= i < |steps| ==> KnownStep(steps[i])
    ensures CarriedThroughout(s, steps) <==> NeverOvertaken(s, steps)
    decreases |steps|
  {
    if steps != [] {
      if CommitsOvertaken(s, steps[0]) {
        OvertakenIsNotCarried(s, steps[0]);
      } else {
        StepKeepsInv(s, steps[0]);
        CarriedExactly(Apply(s, steps[0]), steps[1..]);
      }
    }
  }

  /** In every interleaving of any number of marking sessions with the webhook's insert, including
      all insert races, the row carries the last update at every moment, and says that the order is
      queued before there is one, if and only if no session committed after having been overtaken. */
  lemma LastUpdateWinsExactly(n: nat, steps: seq<Step>)
    requires forall i :: 0 <= i < |steps| ==> KnownStep(steps[i])
    ensures CarriedThroughout(Start(n), steps) <==> NeverOvertaken(Start(n), steps)
  {
    CarriedExactly(Start(n), steps);
  }

  // ----- payload and address

  /** Nobody else has changed what the webhook's session read of these two columns. */
  predicate ReadIsStored(s: State) {
    s.webhook.Selected? && s.webhook.loaded.Some? ==>
      && s.row.Some? && s.row.value.rawPayload == s.webhook.loaded.value.rawPayload
      && s.row.value.sourceIp == s.webhook.loaded.value.sourceIp
  }

  /** Neither a row nor a payload or address in it that is not empty is replaced. */
  predicate KeepsText(r: Option<Row>, r': Option<Row>) {
    r.Some? ==>
      && r'.Some? && (r.value.rawPayload != "" ==> r'.value.rawPayload == r.value.rawPayload)
      && (r.value.sourceIp != "" ==> r'.value.sourceIp == r.value.sourceIp)
  }

  lemma MarkCommitKeepsText(s: State, i: nat, ip: string)
    requires ReadIsStored(s) && i < |s.markers| && s.markers[i].Marking?
    ensures var s' := MarkCommitStep(s, i, ip); ReadIsStored(s') && KeepsText(s.row, s'.row)
  {
  }

  lemma StepKeepsText(s: State, step: Step)
    requires ReadIsStored(s)
    ensures ReadIsStored(Apply(s, step)) && KeepsText(s.row, Apply(s, step).row)
  {
    match step
    case MarkCommit(i, ip) => if i < |s.markers| && s.markers[i].Marking? { MarkCommitKeepsText(s, i, ip); }
    case _ =>
  }

  lemma {:induction false} RunKeepsText(s: State, steps: seq<Step>)
    requires ReadIsStored(s)
    ensures ReadIsStored(Run(s, steps)) && KeepsText(s.row, Run(s, steps).row)
    decreases |steps|
  {
    if steps != [] {
      StepKeepsText(s, steps[0]);
      RunKeepsText(Apply(s, steps[0]), steps[1..]);
    }
  }

  lemma {:induction false} OnlyWebhookStoresPayload(s: State, steps: seq<Step>)
    requires s.row.Some? ==> s.row.value.rawPayload == ""
    requires ReadIsStored(s) && forall i :: 0 <= i < |steps| ==> !steps[i].WebhookCommit?
    ensures var r := Run(s, steps).row; r.Some? ==> r.value.rawPayload == ""
    decreases |steps|
  {
    if steps != [] {
      StepKeepsText(s, steps[0]);
      OnlyWebhookStoresPayload(Apply(s, steps[0]), steps[1..]);
    }
  }

  /** A marking session that creates the row stores no payload: until the webhook commits there is
      none. */
  lemma NoPayloadBefore(n: nat, steps: seq<Step>)
    requires forall i :: 0 <= i < |steps| ==> !steps[i].WebhookCommit?
    ensures var r := Run(Start(n), steps).row; r.Some? ==> r.value.rawPayload == ""
  {
    OnlyWebhookStoresPayload(Start(n), steps);
  }

  /** Over any run the payload and the address of the row, once there, are never replaced; and the
      webhook's commit leaves its own where there was none, unless a marking session created the row
      since its read. */
  lemma TextStays(n: nat, steps: seq<Step>, rest: seq<Step>, raw: string, ip: string)
    ensures var s := Run(Start(n), steps);
      && KeepsText(s.row, Run(s, rest).row)
      && (s.webhook.Selected? ==>
            var r := Apply(s, WebhookCommit(raw, ip)).row;
            && r.Some? && KeepsText(s.row, r)
            && (s.row.None? ==> r.value.rawPayload == raw && r.value.sourceIp == ip)
            && (s.row.Some? && s.webhook.loaded.None? ==> r == s.row)
            && (s.row.Some? && s.webhook.loaded.Some? && s.row.value.rawPayload == "" ==> r.value.rawPayload == raw)
            && (s.row.Some? && s.webhook.loaded.Some? && s.row.value.sourceIp == "" ==> r.value.sourceIp == ip))
  {
    RunKeepsText(Start(n), steps);
    RunKeepsText(Run(Start(n), steps), rest);
    StepKeepsText(Run(Start(n), steps), WebhookCommit(raw, ip));
  }

  // ----- sessions that do not overlap

  predicate NoneMarking(s: State) {
    forall i :: 0 <= i < |s.markers| ==> !s.markers[i].Marking?
  }

  /** Each marking session reads the row only while no other is between its read and its commit. */
  predicate Serial(s: State, steps: seq<Step>)
    decreases |steps|
  {
    steps != [] ==>
      && (steps[0].MarkSelect? || steps[0].MarkReselect? ==> NoneMarking(s))
      && Serial(Apply(s, steps[0]), steps[1..])
  }

  /** At most one session is marking, and what it read is what is stored. */
  predicate UpToDate(s: State) {
    && (forall i, j :: 0 <= i < j < |s.markers| ==> !(s.markers[i].Marking? && s.markers[j].Marking?))
    && (forall i :: 0 <= i < |s.markers| && s.markers[i].Marking? && s.markers[i].found.Some? ==>
          s.row.Some? && s.row.value.flags == s.markers[i].found.value.flags)
  }

  lemma UpToDateKept(s: State, step: Step)
    requires Inv(s) && UpToDate(s) && (step.MarkSelect? || step.MarkReselect? ==> NoneMarking(s))
    ensures UpToDate(Apply(s, step))
  {
    match step
    case WebhookCommit(raw, ip) => if s.webhook.Selected? { WebhookCommitKeeps(s, raw, ip); }
    case _ =>
  }

  lemma {:induction false} SerialIsNeverOvertaken(s: State, steps: seq<Step>)
    requires Inv(s) && UpToDate(s) && Serial(s, steps) && forall i :: 0 <= i < |steps| ==> KnownStep(steps[i])
    ensures NeverOvertaken(s, steps)
    decreases |steps|
  {
    if steps != [] {
      StepKeepsInv(s, steps[0]);
      UpToDateKept(s, steps[0]);
      SerialIsNeverOvertaken(Apply(s, steps[0]), steps[1..]);
    }
  }

  /** Marking sessions that do not overlap, as those of the worker alone never do, always win
      against the webhook. */
  lemma LastUpdateWins(n: nat, steps: seq<Step>)
    requires Serial(Start(n), steps) && forall i :: 0 <= i < |steps| ==> KnownStep(steps[i])
    ensures CarriedThroughout(Start(n), steps)
  {
    SerialIsNeverOvertaken(Start(n), steps);
    LastUpdateWinsExactly(n, steps);
  }

  /** Session 0 wants the queued flags that it reads; session 1 expires the order in between. */
  function Inserting(raw: string, ip: string): seq<Step> {
    [WebhookSelect, WebhookCommit(raw, ip)]
  }

  function Overtaking(reason: string, ip: string, t: int): seq<Step> {
    [MarkSelect(0, Update(false, false, None, Some(true), t)),
     MarkSelect(1, Update(true, true, Some(reason), Some(false), t)),
     MarkCommit(1, ip), MarkCommit(0, ip)]
  }

  lemma RunTwo(s: State, x: Step, y: Step, rest: seq<Step>)
    ensures Run(s, [x, y] + rest) == Run(Apply(Apply(s, x), y), rest)
  {
    hide Apply;
    assert ([x, y] + rest)[1..] == [y] + rest && ([y] + rest)[1..] == rest;
    assert Run(Apply(s, x), [y] + rest) == Run(Apply(Apply(s, x), y), rest);
  }

  lemma BothMark(s: State, reason: string, ip: string, t: int)
    requires s.row.Some? && s.row.value.flags == Fresh("", "").flags && s.markers == [Resting, Resting]
    ensures var s' := Run(s, Overtaking(reason, ip, t));
      s'.last == Some(Update(false, false, None, Some(true), t)) && !CarriesLast(s')
  {
    var steps := Overtaking(reason, ip, t);
    assert steps == [steps[0], steps[1]] + [steps[2], steps[3]] && [steps[2], steps[3]] == [steps[2], steps[3]] + [];
    RunTwo(s, steps[0], steps[1], [steps[2], steps[3]]);
    var s1 := Apply(Apply(s, steps[0]), steps[1]);
    assert s1.markers == [Marking(steps[0].u, s.row, true), Marking(steps[1].u, s.row, true)];
    RunTwo(s1, steps[2], steps[3], []);
  }

  /** The worker's update that puts an order back as queued can be the last one committed while
      the row goes on saying that the scheduler has expired it. */
  lemma OvertakenUpdateIsLost(raw: string, ip: string, reason: string, t: int)
    ensures var s := Run(Start(2), Inserting(raw, ip) + Overtaking(reason, ip, t));
      s.last == Some(Update(false, false, None, Some(true), t)) && !CarriesLast(s)
  {
    RunTwo(Start(2), WebhookSelect, WebhookCommit(raw, ip), Overtaking(reason, ip, t));
    var s := Apply(Apply(Start(2), WebhookSelect), WebhookCommit(raw, ip));
    assert s.row == Some(Fresh(raw, ip)) && s.markers == [Resting, Resting];
    BothMark(s, reason, ip, t);
  }

  /** An update that gets through is recorded as the last one: no insert race swallows it. */
  lemma UpdateIsNeverSwallowed(s: State, i: nat, ip: string, ip': string)
    requires Inv(s) && i < |s.markers| && s.markers[i].Marking?
    ensures var s1 := Apply(s, MarkCommit(i, ip));
      || s1.last == Some(s.markers[i].u)
      || Apply(Apply(s1, MarkReselect(i)), MarkCommit(i, ip')).last == Some(s.markers[i].u)
  {
  }

  /** The flags survive the webhook because of what the marking sessions write: an update outside
      their vocabulary, not processed yet skipped, can be undone by the webhook's session. */
  lemma OtherUpdatesCanBeUndone(u: Update, raw: string, ip: string)
    requires !u.processed && u.skipped && u.queued.Some?
    ensures var created := Apply(Apply(Start(1), MarkSelect(0, u)), MarkCommit(0, ip));
      var s := Apply(Apply(created, WebhookSelect), WebhookCommit(raw, ip));
      s.last == Some(u) && s.row.Some? && !s.row.value.flags.skipped
  {
  }
}
