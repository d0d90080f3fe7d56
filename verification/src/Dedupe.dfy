/** Duplicate suppression over runs: the Redis marker of enqueue_order_once and the keys that
    the webhook derives from an alert. */
module Dedupe {
  import opened Orders
  import opened Tickers
  import opened OrderQueue

  /** One call of enqueue_order_once, at the Redis clock. */
  datatype Attempt = Attempt(order: Order, ttl: int, at: int)

  function MarkersBefore(attempts: seq<Attempt>, n: nat): map<string, int>
    requires n <= |attempts|
  {
    if n == 0 then map[]
    else Marked(MarkersBefore(attempts, n - 1), attempts[n - 1].order, attempts[n - 1].ttl, attempts[n - 1].at)
  }

  predicate Accepts(attempts: seq<Attempt>, i: nat)
    requires i < |attempts|
  {
    Offered(MarkersBefore(attempts, i), attempts[i].order, attempts[i].at) == Queued
  }

  predicate ClockAdvances(attempts: seq<Attempt>) {
    forall i, j :: 0 <= i <= j < |attempts| ==> attempts[i].at <= attempts[j].at
  }

  function Key(attempts: seq<Attempt>, i: nat): string
    requires i < |attempts|
  {
    DedupeKey(attempts[i].order)
  }

  /** Attempt i was accepted under the key, and its marker is still there for attempt j. */
  predicate Shadows(attempts: seq<Attempt>, i: nat, key: string, at: int)
    requires i < |attempts|
  {
    Accepts(attempts, i) && Key(attempts, i) == key && at < attempts[i].at + attempts[i].ttl
  }

  /** The marker of a key is the newest accepted one, which outlasts all earlier ones. */
  lemma {:induction false} MarkerIsNewest(attempts: seq<Attempt>, n: nat, key: string)
    requires n <= |attempts| && key != "" && ClockAdvances(attempts)
    requires forall i :: 0 <= i < |attempts| ==> attempts[i].ttl > 0
    ensures var m := MarkersBefore(attempts, n);
      && (key in m ==>
            (exists i :: 0 <= i < n && Accepts(attempts, i) && Key(attempts, i) == key
                         && m[key] == attempts[i].at + attempts[i].ttl))
      && (forall i :: 0 <= i < n && Accepts(attempts, i) && Key(attempts, i) == key
            ==> key in m && attempts[i].at + attempts[i].ttl <= m[key])
  {
    if n > 0 {
      MarkerIsNewest(attempts, n - 1, key);
    }
  }

  /** A BUY or SELL is accepted exactly when no accepted attempt with its key is younger than
      that attempt's time to live; refused duplicates play no part. */
  lemma AcceptedExactlyWhenUnshadowed(attempts: seq<Attempt>, j: nat)
    requires j < |attempts| && ClockAdvances(attempts)
    requires forall i :: 0 <= i < |attempts| ==> attempts[i].ttl > 0
    requires attempts[j].order.action != Other && Key(attempts, j) != ""
    ensures Accepts(attempts, j) <==> !exists i :: 0 <= i < j && Shadows(attempts, i, Key(attempts, j), attempts[j].at)
  {
    var key, m := Key(attempts, j), MarkersBefore(attempts, j);
    MarkerIsNewest(attempts, j, key);
    if MarkerLive(m, key, attempts[j].at) {
      var i :| 0 <= i < j && Accepts(attempts, i) && Key(attempts, i) == key
               && m[key] == attempts[i].at + attempts[i].ttl;
      assert Shadows(attempts, i, key, attempts[j].at);
    }
  }

  // ----- the webhook's keys

  /** The entries of an alert payload that the keys are built from; alertId and time are "" when
      missing or an unresolved placeholder. */
  datatype Fields = Fields(action: string, symbol: string, alertId: string, time: string, price: string)

  /** What _build_webhook_idempotency works with: the entries of a payload (serialized without
      its secret), SHA-256 in hexadecimal, and decimal notation. */
  datatype Hashing = Hashing(fields: string -> Fields, sha: string -> string, show: int -> string)

  ghost predicate Sound(h: Hashing) {
    && (forall x {:trigger h.sha(x)} :: |h.sha(x)| == 64 && Strip(h.sha(x)) == h.sha(x))
    && (forall x, y {:trigger h.show(x), h.show(y)} :: h.show(x) == h.show(y) ==> x == y)
  }

  /** The two texts are not a collision of the hash. */
  predicate NoCollision(h: Hashing, x: string, y: string) {
    h.sha(x) == h.sha(y) ==> x == y
  }

  predicate HasIdOrTime(f: Fields) {
    f.alertId != "" || f.time != ""
  }

  /** Length in seconds of the audit bucket, from the fallback time to live. */
  function BucketSeconds(fallbackTtl: int): int {
    Max(fallbackTtl, 60)
  }

  function TimedKey(h: Hashing, payload: string): string {
    var f := h.fields(payload);
    if f.alertId != "" then
      "aid|" + f.alertId + "|" + f.action + "|" + f.symbol + "|" + f.time + "|" + h.sha(payload)
    else
      "payload|" + f.action + "|" + f.symbol + "|" + f.time + "|" + f.price + "|" + h.sha(payload)
  }

  function BucketPrefix(h: Hashing, payload: string): string {
    "payload-no-time|" + h.fields(payload).action + "|" + h.fields(payload).symbol + "|bucket:"
  }

  function PriceAndHash(h: Hashing, payload: string): string {
    "|" + h.fields(payload).price + "|" + h.sha(payload)
  }

  /** The raw AlertLog key. */
  function AuditKey(h: Hashing, payload: string, now: int, fallbackTtl: int): string {
    if HasIdOrTime(h.fields(payload)) then TimedKey(h, payload)
    else BucketPrefix(h, payload) + h.show(now / BucketSeconds(fallbackTtl)) + PriceAndHash(h, payload)
  }

  /** The raw Redis dedupe key, which does not rotate. */
  function RedisKey(h: Hashing, payload: string): string {
    var f := h.fields(payload);
    if HasIdOrTime(f) then TimedKey(h, payload)
    else "payload-no-time-dedupe|" + f.action + "|" + f.symbol + PriceAndHash(h, payload)
  }

  lemma EqualTails(a: string, x: string, b: string, y: string)
    requires a + x == b + y && |x| == |y|
    ensures x == y && a == b
  {
    assert (a + x)[|a|..] == x && (b + y)[|b|..] == y;
    assert (a + x)[..|a|] == a && (b + y)[..|b|] == b;
  }

  lemma EndsInHash(h: Hashing, payload: string)
    requires Sound(h)
    ensures |RedisKey(h, payload)| >= 64 && RedisKey(h, payload)[|RedisKey(h, payload)| - 64..] == h.sha(payload)
  {
  }

  /** Two alerts share a Redis key exactly when their payloads agree but for the secret. */
  lemma RedisKeyIdentifiesPayload(h: Hashing, p: string, p': string)
    requires Sound(h) && NoCollision(h, p, p') && NoCollision(h, RedisKey(h, p), RedisKey(h, p'))
    ensures h.sha(RedisKey(h, p)) == h.sha(RedisKey(h, p')) <==> p == p'
  {
    EndsInHash(h, p);
    EndsInHash(h, p');
  }

  /** The two keys of an alert are one exactly when it has an id or a time. */
  lemma KeysAgreeExactly(h: Hashing, payload: string, now: int, fallbackTtl: int)
    ensures AuditKey(h, payload, now, fallbackTtl) == RedisKey(h, payload) <==>
      h.fields(payload).alertId != "" || h.fields(payload).time != ""
  {
    if !HasIdOrTime(h.fields(payload)) {
      assert "payload-no-time|"[15] != "payload-no-time-dedupe|"[15];
      assert AuditKey(h, payload, now, fallbackTtl)[15] == "payload-no-time|"[15];
      assert RedisKey(h, payload)[15] == "payload-no-time-dedupe|"[15];
    }
  }

  lemma BucketKeyShowsBucket(h: Hashing, p: string, t: int, t': int, fallbackTtl: int)
    requires Sound(h) && !HasIdOrTime(h.fields(p))
    requires AuditKey(h, p, t, fallbackTtl) == AuditKey(h, p, t', fallbackTtl)
    ensures t / BucketSeconds(fallbackTtl) == t' / BucketSeconds(fallbackTtl)
  {
    var b := BucketSeconds(fallbackTtl);
    var prefix, tail := BucketPrefix(h, p), PriceAndHash(h, p);
    EqualTails(prefix + h.show(t / b), tail, prefix + h.show(t' / b), tail);
    assert (prefix + h.show(t / b))[|prefix|..] == h.show(t / b);
    assert (prefix + h.show(t' / b))[|prefix|..] == h.show(t' / b);
  }

  lemma FarApartBuckets(t: int, t': int, b: int)
    requires b > 0 && t' - t >= b
    ensures t / b != t' / b
  {
  }

  /** The time to live that the webhook hands to enqueue_order_once for an alert. */
  function AlertTtl(h: Hashing, payload: string, fallbackTtl: int, default: int): int {
    MarkerTtl(Some(if HasIdOrTime(h.fields(payload)) then default else fallbackTtl), default)
  }

  // ----- runs of alerts

  /** One alert: the clock reading its audit key is built from, and the Redis time at which
      enqueue_order_once takes it up. */
  datatype Alert = Alert(side: Side, payload: string, read: int, at: int)

  /** The order that the webhook makes of it. */
  function OrderOf(h: Hashing, a: Alert, fallbackTtl: int): Order {
    Order(a.side, h.fields(a.payload).symbol, At(a.read), Absent, Absent, Absent, 0,
          h.sha(AuditKey(h, a.payload, a.read, fallbackTtl)), h.sha(RedisKey(h, a.payload)))
  }

  function AttemptOf(h: Hashing, a: Alert, fallbackTtl: int, default: int): Attempt {
    Attempt(OrderOf(h, a, fallbackTtl), AlertTtl(h, a.payload, fallbackTtl, default), a.at)
  }

  function Attempts(h: Hashing, alerts: seq<Alert>, fallbackTtl: int, default: int): (r: seq<Attempt>)
    ensures |r| == |alerts| && forall i :: 0 <= i < |r| ==> r[i] == AttemptOf(h, alerts[i], fallbackTtl, default)
  {
    seq(|alerts|, i requires 0 <= i < |alerts| => AttemptOf(h, alerts[i], fallbackTtl, default))
  }

  predicate ArriveInOrder(alerts: seq<Alert>) {
    forall i, j :: 0 <= i <= j < |alerts| ==> alerts[i].at <= alerts[j].at
  }

  /** Two accepted orders with one key are at least the first one's time to live apart. */
  lemma AcceptedAreSpaced(attempts: seq<Attempt>, i: nat, j: nat)
    requires i < j < |attempts| && ClockAdvances(attempts)
    requires forall k :: 0 <= k < |attempts| ==> attempts[k].ttl > 0
    requires Accepts(attempts, i) && Accepts(attempts, j) && Key(attempts, i) == Key(attempts, j) != ""
    ensures attempts[j].at - attempts[i].at >= attempts[i].ttl
  {
    AcceptedExactlyWhenUnshadowed(attempts, j);
    assert !Shadows(attempts, i, Key(attempts, j), attempts[j].at);
  }

  /** The two alerts of a run, of which the first came first, carry one payload and were accepted. */
  ghost predicate BothAccepted(h: Hashing, alerts: seq<Alert>, fallbackTtl: int, default: int, i: nat, j: nat) {
    && i < j < |alerts| && ArriveInOrder(alerts) && alerts[i].payload == alerts[j].payload
    && Accepts(Attempts(h, alerts, fallbackTtl, default), i) && Accepts(Attempts(h, alerts, fallbackTtl, default), j)
  }

  /** The order of an alert is guarded by its payload, carries its side and symbol, and dates from
      the reading of the clock. */
  lemma AlertKey(h: Hashing, a: Alert, fallbackTtl: int)
    requires Sound(h)
    ensures var o := OrderOf(h, a, fallbackTtl);
      && DedupeKey(o) == h.sha(RedisKey(h, a.payload)) != ""
      && o.action == a.side && o.ticker == h.fields(a.payload).symbol && o.retryCount == 0
      && Anchored(o) && Origin(o) == Some(a.read)
  {
    assert |h.sha(RedisKey(h, a.payload))| == 64;
  }

  /** The spacing the webhook promises: the long time to live for an alert with an id or a time,
      the short one for the others, where zero stands for the long one; never under a minute. */
  function Spacing(f: Fields, fallbackTtl: int, default: int): int {
    var seconds := if f.alertId == "" == f.time && fallbackTtl != 0 then fallbackTtl else default;
    if seconds < 60 then 60 else seconds
  }

  /** Over any run of alerts, two acceptances of one payload are at least its spacing apart, which
      is no less than the audit bucket of an alert without id and time. */
  lemma AcceptedAlertsAreSpaced(h: Hashing, alerts: seq<Alert>, fallbackTtl: int, default: int, i: nat, j: nat)
    requires Sound(h) && BothAccepted(h, alerts, fallbackTtl, default, i, j)
    ensures var f := h.fields(alerts[i].payload);
      && alerts[j].at - alerts[i].at >= Spacing(f, fallbackTtl, default)
      && (f.alertId == "" == f.time ==> alerts[j].at - alerts[i].at >= fallbackTtl)
  {
    var attempts := Attempts(h, alerts, fallbackTtl, default);
    AlertKey(h, alerts[i], fallbackTtl);
    AlertKey(h, alerts[j], fallbackTtl);
    AcceptedAreSpaced(attempts, i, j);
  }

  /** No two payloads of the run collide in the hash, nor do their Redis keys. */
  ghost predicate NoCollisions(h: Hashing, alerts: seq<Alert>) {
    forall i, j :: 0 <= i < |alerts| && 0 <= j < |alerts| ==>
      && NoCollision(h, alerts[i].payload, alerts[j].payload)
      && NoCollision(h, RedisKey(h, alerts[i].payload), RedisKey(h, alerts[j].payload))
  }

  /** Alert i of the run was accepted, carries the payload, and is younger at the time than its
      spacing. */
  predicate Blocks(h: Hashing, alerts: seq<Alert>, fallbackTtl: int, default: int, i: nat, payload: string, at: int)
    requires i < |alerts|
  {
    && Accepts(Attempts(h, alerts, fallbackTtl, default), i) && alerts[i].payload == payload
    && at - alerts[i].at < Spacing(h.fields(payload), fallbackTtl, default)
  }

  /** An alert is accepted exactly when no accepted alert with its payload is younger than the
      spacing: nothing else is refused, and refused ones hold nobody up. */
  lemma AlertAcceptedExactly(h: Hashing, alerts: seq<Alert>, fallbackTtl: int, default: int, j: nat)
    requires Sound(h) && ArriveInOrder(alerts) && NoCollisions(h, alerts)
    requires j < |alerts| && alerts[j].side != Other
    ensures Accepts(Attempts(h, alerts, fallbackTtl, default), j) <==>
      !exists i :: 0 <= i < j && Blocks(h, alerts, fallbackTtl, default, i, alerts[j].payload, alerts[j].at)
  {
    hide Sound, RedisKey, MarkersBefore, Accepts, DedupeKey;
    var attempts := Attempts(h, alerts, fallbackTtl, default);
    AlertKey(h, alerts[j], fallbackTtl);
    AcceptedExactlyWhenUnshadowed(attempts, j);
    forall i | 0 <= i < j
      ensures Shadows(attempts, i, Key(attempts, j), alerts[j].at)
          <==> Blocks(h, alerts, fallbackTtl, default, i, alerts[j].payload, alerts[j].at)
    {
      AlertKey(h, alerts[i], fallbackTtl);
      RedisKeyIdentifiesPayload(h, alerts[i].payload, alerts[j].payload);
    }
  }

  function AuditHash(h: Hashing, a: Alert, fallbackTtl: int): string {
    h.sha(AuditKey(h, a.payload, a.read, fallbackTtl))
  }

  /** How long after its key was built an alert is taken up. */
  function Lateness(a: Alert): int {
    a.at - a.read
  }

  predicate SameBucket(a: Alert, b: Alert, fallbackTtl: int) {
    var seconds := if fallbackTtl < 60 then 60 else fallbackTtl;
    a.read / seconds == b.read / seconds
  }

  lemma AuditHashesAgree(h: Hashing, a: Alert, b: Alert, fallbackTtl: int)
    requires Sound(h) && a.payload == b.payload
    requires NoCollision(h, AuditKey(h, a.payload, a.read, fallbackTtl), AuditKey(h, b.payload, b.read, fallbackTtl))
    ensures AuditHash(h, a, fallbackTtl) == AuditHash(h, b, fallbackTtl)
        <==> HasIdOrTime(h.fields(a.payload)) || SameBucket(a, b, fallbackTtl)
  {
    if !HasIdOrTime(h.fields(a.payload)) {
      if AuditKey(h, a.payload, a.read, fallbackTtl) == AuditKey(h, b.payload, b.read, fallbackTtl) {
        BucketKeyShowsBucket(h, a.payload, a.read, b.read, fallbackTtl);
      }
    }
  }

  /** Two acceptances of one payload in a run write one AlertLog key exactly when the payload has
      an id or time or the two readings share a bucket; without id and time they never do when the
      second alert was no later than the first between its reading and its acceptance. */
  lemma AcceptedTwiceAuditedTwice(h: Hashing, alerts: seq<Alert>, fallbackTtl: int, default: int, i: nat, j: nat)
    requires Sound(h) && BothAccepted(h, alerts, fallbackTtl, default, i, j)
    requires NoCollision(h, AuditKey(h, alerts[i].payload, alerts[i].read, fallbackTtl),
                         AuditKey(h, alerts[j].payload, alerts[j].read, fallbackTtl))
    ensures var one := AuditHash(h, alerts[i], fallbackTtl) == AuditHash(h, alerts[j], fallbackTtl);
      && (one <==> HasIdOrTime(h.fields(alerts[i].payload)) || SameBucket(alerts[i], alerts[j], fallbackTtl))
      && (Lateness(alerts[j]) <= Lateness(alerts[i]) ==> (one <==> HasIdOrTime(h.fields(alerts[i].payload))))
  {
    AuditHashesAgree(h, alerts[i], alerts[j], fallbackTtl);
    AcceptedAlertsAreSpaced(h, alerts, fallbackTtl, default, i, j);
    if Lateness(alerts[j]) <= Lateness(alerts[i]) && !HasIdOrTime(h.fields(alerts[i].payload)) {
      FarApartBuckets(alerts[i].read, alerts[j].read, BucketSeconds(fallbackTtl));
    }
  }

  /** A second of lateness is enough: the second alert is read just before the bucket ends and
      accepted just as the first one's marker expires. */
  lemma LateAcceptanceSharesBucket(h: Hashing, side: Side, p: string, default: int)
    requires Sound(h) && side != Other && !HasIdOrTime(h.fields(p))
    ensures var alerts := [Alert(side, p, 0, 0), Alert(side, p, 599, 600)];
      && BothAccepted(h, alerts, 600, default, 0, 1)
      && AuditHash(h, alerts[0], 600) == AuditHash(h, alerts[1], 600)
  {
    var alerts := [Alert(side, p, 0, 0), Alert(side, p, 599, 600)];
    var attempts := Attempts(h, alerts, 600, default);
    AlertKey(h, alerts[0], 600);
    AlertKey(h, alerts[1], 600);
    var key := h.sha(RedisKey(h, p));
    assert MarkersBefore(attempts, 0) == map[];
    assert MarkersBefore(attempts, 1) == map[key := 600];
  }
}
