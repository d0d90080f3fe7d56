/** The order payloads that travel through the Redis lists, and the age of a pending order. */
module Orders {

  datatype Option<+T> = None | Some(value: T)

  /** What a timestamp entry of the order dictionary can hold: the key is missing, the key is
      there with a falsy value, the text does not parse as ISO time, or it names an instant. */
  datatype Stamp = Absent | Blank | Garbled(text: string) | At(instant: int) {
    function Parse(): Option<int> {
      if At? then Some(instant) else None
    }
  }

  /** The action text as every reader takes it: upper-cased, then compared. */
  datatype Side = Sell | Buy | Other

  /** The fields of the order dictionary that the queue code reads or writes. */
  datatype Order = Order(
    action: Side,
    ticker: string,
    received: Stamp,
    created: Stamp,
    firstQueued: Stamp,
    queued: Stamp,
    retryCount: int,
    idempotencyKey: string,
    dedupeKey: string)

  /** A list entry: serialized JSON of an order, or text that does not decode. */
  datatype Payload = Json(order: Order) | Invalid(text: string)

  /** The first of received_at, created_at, first_queued_at, queued_at that parses. */
  function Origin(o: Order): Option<int> {
    if o.received.At? then o.received.Parse()
    else if o.created.At? then o.created.Parse()
    else if o.firstQueued.At? then o.firstQueued.Parse()
    else o.queued.Parse()
  }

  function Age(o: Order, now: int): Option<nat> {
    match Origin(o)
    case None => None
    case Some(t) => Some(if now <= t then 0 else now - t)
  }

  predicate Expired(o: Order, now: int, ttl: int) {
    ttl > 0 && var age := Age(o, now); age.Some? && age.value > ttl
  }

  /** The dictionary that enqueue_pending serializes. */
  function EnterPending(o: Order, now: int): Order {
    var since := if o.queued.Absent? || o.queued.Blank? then At(now) else o.queued;
    o.(firstQueued := if o.firstQueued.Absent? then since else o.firstQueued, queued := At(now))
  }

  /** The dictionary that the worker pushes back after an exception. */
  function Retried(o: Order): Order {
    o.(retryCount := o.retryCount + 1)
  }

  /** What can happen to a payload between two looks at it: flush, dequeue and crash recovery
      move the serialized text unchanged, so only these two rewrite it. */
  datatype Rewrite = Repend(now: int) | Retry

  function Evolve(o: Order, life: seq<Rewrite>): Order
    decreases |life|
  {
    if life == [] then o
    else Evolve(match life[0] case Repend(now) => EnterPending(o, now) case Retry => Retried(o), life[1..])
  }

  /** A time that rewriting never touches is readable. */
  predicate Anchored(o: Order) {
    o.received.At? || o.created.At? || o.firstQueued.At?
  }

  /** Checkable before the order is first put in the pending list: everything but a
      first_queued_at (given, or copied from queued_at) that cannot be read. */
  predicate Anchorable(o: Order) {
    || o.received.At? || o.created.At? || o.firstQueued.At?
    || (o.firstQueued.Absent? && !o.queued.Garbled?)
  }

  /** The entries that are read for the age of an order, in the order they are read. */
  function Stamps(o: Order): seq<Stamp> {
    [o.received, o.created, o.firstQueued, o.queued]
  }

  /** The first entry that names an instant decides, whatever the later ones say. */
  lemma OriginIsFirstReadable(o: Order)
    ensures Origin(o).None? <==> forall k :: 0 <= k < 4 ==> !Stamps(o)[k].At?
    ensures forall k :: 0 <= k < 4 && Stamps(o)[k].At? && (forall j :: 0 <= j < k ==> !Stamps(o)[j].At?) ==>
              Origin(o) == Some(Stamps(o)[k].instant)
  {
    assert Stamps(o)[0] == o.received && Stamps(o)[1] == o.created;
    assert Stamps(o)[2] == o.firstQueued && Stamps(o)[3] == o.queued;
  }

  /** An order has expired exactly when there is a limit and its origin lies further back than that. */
  lemma ExpiredExactly(o: Order, now: int, ttl: int)
    ensures Expired(o, now, ttl) <==> ttl > 0 && exists t :: Origin(o) == Some(t) && t + ttl < now
  {
  }

  /** Entering the pending list leaves a readable age as it was, unless the order's only readable
      time is that of an earlier entry whose beginning cannot be read; and entering once more
      renews the time of entry alone. */
  lemma EnteringKeepsAgeExactly(o: Order, now: int, later: int)
    ensures var p := EnterPending(o, now);
      && p == o.(firstQueued := p.firstQueued, queued := At(now))
      && EnterPending(p, later) == p.(queued := At(later))
      && (Origin(p) != Some(now) ==> Origin(p) == Origin(o))
      && (Origin(o).Some? && Origin(o) != Some(now) ==>
            (Origin(p) == Origin(o) <==> Anchored(o) || o.firstQueued.Absent?))
      && (Origin(o).None? ==> Origin(p) == Some(now))
  {
  }

  lemma {:induction false} EvolveAnchored(o: Order, life: seq<Rewrite>)
    requires Anchored(o)
    ensures Anchored(Evolve(o, life)) && Origin(Evolve(o, life)) == Origin(o)
    decreases |life|
  {
    if life != [] {
      var o' := match life[0] case Repend(now) => EnterPending(o, now) case Retry => Retried(o);
      EvolveAnchored(o', life[1..]);
    }
  }

  /** From the first entry into the pending list on, no sequence of flushes, retries and
      re-pendings moves the age origin, exactly when the order was anchorable. */
  lemma {:induction false} AgeOriginFixedExactlyWhenAnchorable(o: Order, first: int)
    ensures Anchorable(o)
        <==> forall life :: Origin(Evolve(EnterPending(o, first), life)) == Origin(EnterPending(o, first))
  {
    var p := EnterPending(o, first);
    if Anchorable(o) {
      forall life ensures Origin(Evolve(p, life)) == Origin(p) {
        EvolveAnchored(p, life);
      }
    } else {
      var life := [Repend(first + 1)];
      assert Evolve(p, life) == Evolve(EnterPending(p, first + 1), life[1..]);
      assert Origin(Evolve(p, life)) == Some(first + 1) != Origin(p);
    }
  }

  lemma ExpiredForGood(o: Order, first: int, life: seq<Rewrite>, now: int, later: int, ttl: int)
    requires Anchorable(o) && now <= later
    requires Expired(EnterPending(o, first), now, ttl)
    ensures Expired(Evolve(EnterPending(o, first), life), later, ttl)
  {
    EvolveAnchored(EnterPending(o, first), life);
  }

  /** Entering the pending list again makes an order that was not anchorable young again. */
  lemma RependRejuvenates(o: Order, first: int, again: int)
    requires !Anchorable(o)
    ensures var p := EnterPending(o, first);
      Origin(p) == Some(first) && Origin(Evolve(p, [Repend(again)])) == Some(again)
  {
    var p := EnterPending(o, first);
    assert Evolve(p, [Repend(again)]) == Evolve(EnterPending(p, again), [Repend(again)][1..]);
  }

  /** Once past the limit, an order stays past it however often it is re-queued, exactly when it
      was anchorable. */
  lemma ExpiredForGoodExactly(o: Order, first: int)
    ensures var p := EnterPending(o, first);
      Anchorable(o) <==>
        forall life, now, later, ttl :: now <= later && Expired(p, now, ttl) ==> Expired(Evolve(p, life), later, ttl)
  {
    var p := EnterPending(o, first);
    if Anchorable(o) {
      forall life, now, later, ttl | now <= later && Expired(p, now, ttl) ensures Expired(Evolve(p, life), later, ttl) {
        ExpiredForGood(o, first, life, now, later, ttl);
      }
    } else {
      var now := first + 2;
      RependRejuvenates(o, first, now);
      assert Expired(p, now, 1) && !Expired(Evolve(p, [Repend(now)]), now, 1);
    }
  }
}
