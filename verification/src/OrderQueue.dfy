/** The four Redis lists and the operations of the order queue, each run without interference.
    Interleavings of their atomic steps are the subject of module Protocol. */
module OrderQueue {
  import opened Orders
  import opened Tickers

  /** Redis lists by key; index 0 is the left end, where LPUSH inserts. RPOP takes the right end. */
  datatype Queues = Queues(sell: seq<Payload>, buy: seq<Payload>, pending: seq<Payload>, processing: seq<Payload>)

  /** An order taken by the worker, with the list it came from. */
  datatype Held = Held(raw: Payload, source: Side)

  /** LREM list 1 x: drop the leftmost occurrence. */
  function Lrem(list: seq<Payload>, x: Payload): seq<Payload> {
    if list == [] then []
    else if list[0] == x then list[1..]
    else [list[0]] + Lrem(list[1..], x)
  }

  lemma {:induction false} LremDropsOne(list: seq<Payload>, x: Payload)
    ensures multiset(Lrem(list, x)) == multiset(list) - multiset{x}
  {
    if list != [] {
      assert list == [list[0]] + list[1..];
      if list[0] != x {
        LremDropsOne(list[1..], x);
      }
    }
  }

  /** It is the leftmost one that goes. */
  lemma {:induction false} LremDropsLeftmost(before: seq<Payload>, x: Payload, after: seq<Payload>)
    requires x !in before
    ensures Lrem(before + [x] + after, x) == before + after
  {
    var list := before + [x] + after;
    if before == [] {
      assert list[0] == x && list[1..] == after;
    } else {
      assert before[0] in before;
      assert list[0] == before[0] && list[1..] == before[1..] + [x] + after;
      LremDropsLeftmost(before[1..], x, after);
    }
  }

  function LpushSide(q: Queues, side: Side, p: Payload): Queues {
    match side
    case Sell => q.(sell := [p] + q.sell)
    case Buy => q.(buy := [p] + q.buy)
    case Other => q
  }

  /** A payload in hand goes back to the list it came from. */
  function Restored(q: Queues, h: Held): Queues {
    LpushSide(q.(processing := Lrem(q.processing, h.raw)), h.source, h.raw)
  }

  // ----- rotation of the pending list

  datatype Sweep = Purge | Flush(market: string)

  /** What a sweep does with one popped entry. */
  datatype Fate = Drop | Expire | Keep | ToSell | ToBuy

  function FateOf(p: Payload, sweep: Sweep, now: int, ttl: int): Fate {
    match p
    case Invalid(_) => Drop
    case Json(o) =>
      if Expired(o, now, ttl) then Expire
      else if sweep.Purge? || !WakesFor(o.ticker, sweep.market) then Keep
      else if o.action == Sell then ToSell
      else ToBuy
  }

  /** The decision a sweep makes entry by entry; its clock is read once, before the loop. */
  function Classifier(sweep: Sweep, now: int, ttl: int): Payload -> Fate {
    p => FateOf(p, sweep, now, ttl)
  }

  /** The entries of a list that share a fate, in list order. */
  function Fated(list: seq<Payload>, f: Payload -> Fate, fate: Fate): seq<Payload> {
    if list == [] then []
    else
      var rest := Fated(list[1..], f, fate);
      if f(list[0]) == fate then [list[0]] + rest else rest
  }

  lemma {:induction false} FatedSnoc(list: seq<Payload>, p: Payload, f: Payload -> Fate, fate: Fate)
    ensures Fated(list + [p], f, fate)
         == Fated(list, f, fate) + (if f(p) == fate then [p] else [])
  {
    if list == [] {
      assert [] + [p] == [p];
    } else {
      FatedSnoc(list[1..], p, f, fate);
      assert (list + [p])[1..] == list[1..] + [p];
    }
  }

  function Reverse<T>(s: seq<T>): (r: seq<T>)
    ensures |r| == |s| && forall i :: 0 <= i < |s| ==> r[i] == s[|s| - 1 - i]
  {
    if s == [] then [] else Reverse(s[1..]) + [s[0]]
  }

  /** The running variables of the rotation loop. */
  datatype Rotation = Rotation(q: Queues, expired: seq<Payload>, kept: nat, moved: nat)

  /** Pop the right end of the pending list and push it where it belongs. */
  function Turn(r: Rotation, f: Payload -> Fate): Rotation {
    if r.q.pending == [] then r
    else
      var p := r.q.pending[|r.q.pending| - 1];
      var q := r.q.(pending := r.q.pending[..|r.q.pending| - 1]);
      match f(p)
      case Drop => r.(q := q)
      case Expire => r.(q := q, expired := r.expired + [p])
      case Keep => r.(q := q.(pending := [p] + q.pending), kept := r.kept + 1)
      case ToSell => r.(q := LpushSide(q, Sell, p), moved := r.moved + 1)
      case ToBuy => r.(q := LpushSide(q, Buy, p), moved := r.moved + 1)
  }

  function Turns(r: Rotation, n: nat, f: Payload -> Fate): Rotation
    decreases n
  {
    if n == 0 then r else Turns(Turn(r, f), n - 1, f)
  }

  /** n turns treat the n oldest entries as a filter would and put what is kept in front of the rest. */
  function Filtered(r: Rotation, tail: seq<Payload>, head: seq<Payload>, f: Payload -> Fate): Rotation {
    var keep := Fated(tail, f, Keep);
    var toSell := Fated(tail, f, ToSell);
    var toBuy := Fated(tail, f, ToBuy);
    Rotation(r.q.(pending := keep + head, sell := toSell + r.q.sell, buy := toBuy + r.q.buy),
             r.expired + Reverse(Fated(tail, f, Expire)),
             r.kept + |keep|, r.moved + |toSell| + |toBuy|)
  }

  lemma Shift(a: seq<Payload>, p: Payload, b: seq<Payload>)
    ensures a + ([p] + b) == (a + [p]) + b
  {
  }

  lemma ReverseSnoc(a: seq<Payload>, p: Payload)
    ensures Reverse(a + [p]) == [p] + Reverse(a)
  {
  }

  lemma FilteredSnoc(r: Rotation, rest: seq<Payload>, p: Payload, head: seq<Payload>, f: Payload -> Fate)
    requires r.q.pending == head + (rest + [p])
    ensures Filtered(Turn(r, f), rest, if f(p) == Keep then [p] + head else head, f)
         == Filtered(r, rest + [p], head, f)
  {
    assert r.q.pending[|r.q.pending| - 1] == p;
    FatedSnoc(rest, p, f, Keep);
    FatedSnoc(rest, p, f, ToSell);
    FatedSnoc(rest, p, f, ToBuy);
    FatedSnoc(rest, p, f, Expire);
    match f(p) {
      case Drop =>
      case Expire =>
        ReverseSnoc(Fated(rest, f, Expire), p);
        var older := Reverse(Fated(rest, f, Expire));
        assert r.expired + ([p] + older) == (r.expired + [p]) + older;
      case Keep => Shift(Fated(rest, f, Keep), p, head);
      case ToSell => Shift(Fated(rest, f, ToSell), p, r.q.sell);
      case ToBuy => Shift(Fated(rest, f, ToBuy), p, r.q.buy);
    }
  }

  lemma {:induction false} TurnsFilter(r: Rotation, tail: seq<Payload>, head: seq<Payload>, f: Payload -> Fate)
    requires r.q.pending == head + tail
    ensures Turns(r, |tail|, f) == Filtered(r, tail, head, f)
    decreases |tail|
  {
    if tail != [] {
      var p, rest := tail[|tail| - 1], tail[..|tail| - 1];
      assert tail == rest + [p];
      assert r.q.pending[..|r.q.pending| - 1] == head + rest;
      var r' := Turn(r, f);
      var head' := if f(p) == Keep then [p] + head else head;
      assert r'.q.pending == head' + rest;
      TurnsFilter(r', rest, head', f);
      FilteredSnoc(r, rest, p, head, f);
    }
  }

  /** A flush for one of the six markets expires what is too old, wakes exactly the live orders
      routed to that market, each on its own side, and leaves the others pending. */
  lemma FlushSortsExactly(o: Order, m: Market, now: int, ttl: int)
    ensures var fate := FateOf(Json(o), Flush(m.Name()), now, ttl);
      && (fate == Expire <==> Expired(o, now, ttl))
      && (fate == Keep <==> !Expired(o, now, ttl) && MarketOf(o.ticker) != m)
      && (fate == ToSell <==> !Expired(o, now, ttl) && MarketOf(o.ticker) == m && o.action == Sell)
      && (fate == ToBuy <==> !Expired(o, now, ttl) && MarketOf(o.ticker) == m && o.action != Sell)
  {
    WakesForItsOwnMarketOnly(o.ticker, m);
    assert m.Name() != "";
  }

  lemma {:induction false} FatedIs(list: seq<Payload>, f: Payload -> Fate, fate: Fate)
    ensures forall p :: p in Fated(list, f, fate) <==> p in list && f(p) == fate
  {
    if list != [] {
      FatedIs(list[1..], f, fate);
      assert list == [list[0]] + list[1..];
    }
  }

  /** The pending order is live and routed to the market. */
  predicate Wakes(p: Payload, m: Market, now: int, ttl: int) {
    p.Json? && !Expired(p.order, now, ttl) && MarketOf(p.order.ticker) == m
  }

  /** What a flush adds to the sell list and to the buy list and what it leaves pending: the SELLs it
      wakes, whatever else it wakes, and the live orders of other markets. */
  ghost predicate Flushed(was: seq<Payload>, sells: seq<Payload>, buys: seq<Payload>, left: seq<Payload>, m: Market,
                          now: int, ttl: int) {
    && (forall p :: p in sells <==> p in was && Wakes(p, m, now, ttl) && p.order.action == Sell)
    && (forall p :: p in buys <==> p in was && Wakes(p, m, now, ttl) && p.order.action != Sell)
    && (forall p :: p in left <==>
          p in was && p.Json? && !Expired(p.order, now, ttl) && MarketOf(p.order.ticker) != m)
  }

  lemma FlushAddsExactly(list: seq<Payload>, m: Market, now: int, ttl: int)
    ensures var f := Classifier(Flush(m.Name()), now, ttl);
      Flushed(list, Fated(list, f, ToSell), Fated(list, f, ToBuy), Fated(list, f, Keep), m, now, ttl)
  {
    var f := Classifier(Flush(m.Name()), now, ttl);
    FatedIs(list, f, ToSell);
    FatedIs(list, f, ToBuy);
    FatedIs(list, f, Keep);
    forall p: Payload | p.Json?
      ensures f(p) == ToSell <==> Wakes(p, m, now, ttl) && p.order.action == Sell
      ensures f(p) == ToBuy <==> Wakes(p, m, now, ttl) && p.order.action != Sell
      ensures f(p) == Keep <==> !Expired(p.order, now, ttl) && MarketOf(p.order.ticker) != m
    {
      FlushSortsExactly(p.order, m, now, ttl);
    }
  }

  /** An order that was too old at one sweep is never moved to an active list by a later one,
      whatever retries and re-pendings come in between, exactly when it was anchorable. */
  lemma TooOldNeverActivatedExactly(o: Order, first: int, sweep: Sweep)
    ensures var p := EnterPending(o, first);
      Anchorable(o) <==>
        forall life, now, later, ttl :: now <= later && FateOf(Json(p), sweep, now, ttl) == Expire ==>
          FateOf(Json(Evolve(p, life)), sweep, later, ttl) == Expire
  {
    var p := EnterPending(o, first);
    if Anchorable(o) {
      forall life, now, later, ttl | now <= later && FateOf(Json(p), sweep, now, ttl) == Expire
        ensures FateOf(Json(Evolve(p, life)), sweep, later, ttl) == Expire
      {
        ExpiredForGood(o, first, life, now, later, ttl);
      }
    } else {
      var now := first + 2;
      RependRejuvenates(o, first, now);
      assert FateOf(Json(p), sweep, now, 1) == Expire != FateOf(Json(Evolve(p, [Repend(now)])), sweep, now, 1);
    }
  }

  // ----- recovery

  predicate Recoverable(p: Payload, side: Side) {
    p.Json? && p.order.action == side
  }

  function Sided(list: seq<Payload>, side: Side): seq<Payload> {
    if list == [] then []
    else if Recoverable(list[0], side) then [list[0]] + Sided(list[1..], side)
    else Sided(list[1..], side)
  }

  /** One turn of the recovery loop. */
  function RecoverOne(q: Queues): Queues
    requires q.processing != []
  {
    var raw := q.processing[|q.processing| - 1];
    var q' := q.(processing := q.processing[..|q.processing| - 1]);
    if raw.Json? then LpushSide(q', raw.order.action, raw) else q'
  }

  function RecoverAll(q: Queues): Queues
    decreases |q.processing|
  {
    if q.processing == [] then q else RecoverAll(RecoverOne(q))
  }

  lemma {:induction false} SidedSnoc(list: seq<Payload>, p: Payload, side: Side)
    ensures Sided(list + [p], side) == Sided(list, side) + (if Recoverable(p, side) then [p] else [])
  {
    if list == [] {
      assert [] + [p] == [p];
    } else {
      SidedSnoc(list[1..], p, side);
      assert (list + [p])[1..] == list[1..] + [p];
    }
  }

  /** Recovery puts every in-flight order back in front of its own list, in processing order. */
  lemma {:induction false} RecoverAllIsFilter(q: Queues)
    ensures RecoverAll(q)
         == q.(processing := [], sell := Sided(q.processing, Sell) + q.sell, buy := Sided(q.processing, Buy) + q.buy)
    decreases |q.processing|
  {
    if q.processing != [] {
      var n := |q.processing| - 1;
      var raw, rest := q.processing[n], q.processing[..n];
      assert q.processing == rest + [raw];
      SidedSnoc(rest, raw, Sell);
      SidedSnoc(rest, raw, Buy);
      RecoverAllIsFilter(RecoverOne(q));
      Shift(Sided(rest, Sell), raw, q.sell);
      Shift(Sided(rest, Buy), raw, q.buy);
    }
  }

  // ----- enqueue once

  datatype Accepted = Queued | Duplicate | UnknownAction

  function Max(a: int, b: int): int {
    if a < b then b else a
  }

  /** The Redis time to live: the argument, or the default when it is missing or zero, at least a minute. */
  function MarkerTtl(ttlSeconds: Option<int>, default: int): int {
    Max(if ttlSeconds.Some? && ttlSeconds.value != 0 then ttlSeconds.value else default, 60)
  }

  /** A time to live of a minute or more is taken as it is; a missing or zero one is the default. */
  lemma MarkersLastAMinute(ttl: int, default: int)
    ensures ttl >= 60 ==> MarkerTtl(Some(ttl), default) == ttl
    ensures ttl < 60 && ttl != 0 ==> MarkerTtl(Some(ttl), default) == 60
    ensures MarkerTtl(Some(0), default) == MarkerTtl(None, default) == if default >= 60 then default else 60
  {
  }

  function DedupeKey(o: Order): string {
    Strip(if o.dedupeKey != "" then o.dedupeKey else Strip(o.idempotencyKey))
  }

  /** An order without a dedupe key of its own is guarded by its idempotency key. */
  lemma GuardedByEither(o: Order)
    ensures DedupeKey(o) == Strip(if o.dedupeKey == "" then o.idempotencyKey else o.dedupeKey)
  {
    StripTrims(o.idempotencyKey);
  }

  predicate MarkerLive(markers: map<string, int>, key: string, now: int) {
    key in markers && now < markers[key]
  }

  /** The answer of the enqueue-once script at Redis time `now`. */
  function Offered(markers: map<string, int>, o: Order, now: int): Accepted {
    if o.action == Other then UnknownAction
    else if DedupeKey(o) != "" && MarkerLive(markers, DedupeKey(o), now) then Duplicate
    else Queued
  }

  function Marked(markers: map<string, int>, o: Order, ttl: int, now: int): map<string, int> {
    if Offered(markers, o, now) == Queued && DedupeKey(o) != "" then markers[DedupeKey(o) := now + ttl] else markers
  }

  lemma {:induction false} PurgeMovesNothing(list: seq<Payload>, now: int, ttl: int)
    ensures Fated(list, Classifier(Purge, now, ttl), ToSell) == [] == Fated(list, Classifier(Purge, now, ttl), ToBuy)
  {
    if list != [] {
      PurgeMovesNothing(list[1..], now, ttl);
    }
  }

  lemma TurnsOnce(r: Rotation, n: nat, f: Payload -> Fate)
    requires n > 0
    ensures Turns(r, n, f) == Turns(Turn(r, f), n - 1, f)
  {
  }

  lemma {:induction false} TurnsOfNothing(r: Rotation, n: nat, f: Payload -> Fate)
    requires r.q.pending == []
    ensures Turns(r, n, f) == r
    decreases n
  {
    if n != 0 {
      TurnsOfNothing(r, n - 1, f);
    }
  }

  /** RPOPLPUSH from an active list to the processing list. */
  function Taken(q: Queues, source: Side): Queues
    requires if source == Sell then q.sell != [] else source == Buy && q.buy != []
  {
    if source == Sell then
      var n := |q.sell| - 1;
      q.(sell := q.sell[..n], processing := [q.sell[n]] + q.processing)
    else
      var n := |q.buy| - 1;
      q.(buy := q.buy[..n], processing := [q.buy[n]] + q.processing)
  }

  /** What one call of dequeue_order does to the lists, and the order it returns. */
  function Dequeued(q: Queues): (Queues, Option<Held>) {
    if q.sell != [] && q.sell[|q.sell| - 1].Json? then
      (Taken(q, Sell), Some(Held(q.sell[|q.sell| - 1], Sell)))
    else
      var q' := if q.sell == [] then q else q.(sell := q.sell[..|q.sell| - 1]);
      if q'.buy != [] && q'.buy[|q'.buy| - 1].Json? then
        (Taken(q', Buy), Some(Held(q'.buy[|q'.buy| - 1], Buy)))
      else if q'.buy == [] then (q', None)
      else (q'.(buy := q'.buy[..|q'.buy| - 1]), None)
  }

  class RedisQueue {
    var sell: seq<Payload>
    var buy: seq<Payload>
    var pending: seq<Payload>
    var processing: seq<Payload>
    var markers: map<string, int>  // dedupe key to the time it expires

    function View(): Queues
      reads this
    {
      Queues(sell, buy, pending, processing)
    }

    /** enqueue_order: an unknown action is logged and not queued. */
    method EnqueueOrder(o: Order)
      modifies this
      ensures View() == LpushSide(old(View()), o.action, Json(o))
      ensures markers == old(markers)
    {
      var side := o.action;
      if side == Sell {
        sell := [Json(o)] + sell;
      } else if side == Buy {
        buy := [Json(o)] + buy;
      }
    }

    /** enqueue_order_once: the marker is set if absent and the order pushed, atomically. */
    method EnqueueOrderOnce(o: Order, ttlSeconds: Option<int>, default: int, now: int) returns (r: Accepted)
      modifies this
      ensures r == Offered(old(markers), o, now)
      ensures View() == if r == Queued then LpushSide(old(View()), o.action, Json(o)) else old(View())
      ensures markers == Marked(old(markers), o, MarkerTtl(ttlSeconds, default), now)
    {
      var side := o.action;
      if side == Other {
        return UnknownAction;
      }
      var key := DedupeKey(o);
      if key == "" {
        EnqueueOrder(o);
        return Queued;
      }
      if MarkerLive(markers, key, now) {
        return Duplicate;
      }
      markers := markers[key := now + MarkerTtl(ttlSeconds, default)];
      EnqueueOrder(o);
      return Queued;
    }

    method EnqueuePending(o: Order, now: int)
      modifies `pending
      ensures View() == old(View()).(pending := [Json(EnterPending(o, now))] + old(pending))
    {
      pending := [Json(EnterPending(o, now))] + pending;
    }

    /** dequeue_order: the oldest SELL, else the oldest BUY, moved to the processing list; an
        entry that does not decode is discarded and ends the turn of its list. */
    method DequeueOrder() returns (r: Option<Held>)
      modifies `sell, `buy, `processing
      ensures View() == Dequeued(old(View())).0 && r == Dequeued(old(View())).1
    {
      if sell != [] {
        var raw := sell[|sell| - 1];
        sell, processing := sell[..|sell| - 1], [raw] + processing;
        if raw.Json? {
          return Some(Held(raw, Sell));
        }
        processing := Lrem(processing, raw);
      }
      if buy != [] {
        var raw := buy[|buy| - 1];
        buy, processing := buy[..|buy| - 1], [raw] + processing;
        if raw.Json? {
          return Some(Held(raw, Buy));
        }
        processing := Lrem(processing, raw);
      }
      return None;
    }

    method AckProcessedOrder(h: Held)
      modifies `processing
      ensures processing == Lrem(old(processing), h.raw)
    {
      processing := Lrem(processing, h.raw);
    }

    /** requeue_processing_order: both commands in one transaction. */
    method RequeueProcessingOrder(h: Held)
      requires h.source != Other
      modifies `sell, `buy, `processing
      ensures View() == Restored(old(View()), h)
    {
      processing := Lrem(processing, h.raw);
      if h.source == Sell {
        sell := [h.raw] + sell;
      } else {
        buy := [h.raw] + buy;
      }
    }

    /** requeue_inflight_orders */
    method RequeueInflightOrders()
      modifies `sell, `buy, `processing
      ensures processing == []
      ensures sell == Sided(old(processing), Sell) + old(sell)
      ensures buy == Sided(old(processing), Buy) + old(buy)
    {
      RecoverAllIsFilter(View());
      while processing != []
        invariant RecoverAll(View()) == RecoverAll(old(View()))
        decreases |processing|
      {
        var raw := processing[|processing| - 1];
        processing := processing[..|processing| - 1];
        if raw.Json? {
          var side := raw.order.action;
          if side == Sell {
            sell := [raw] + sell;
          } else if side == Buy {
            buy := [raw] + buy;
          }
        }
      }
    }

    /** The body of the rotation loop. */
    method RotateOne(f: Payload -> Fate, expired: seq<Payload>, kept: nat, moved: nat)
      returns (expired': seq<Payload>, kept': nat, moved': nat)
      requires pending != []
      modifies `pending, `sell, `buy
      ensures Rotation(View(), expired', kept', moved') == Turn(Rotation(old(View()), expired, kept, moved), f)
    {
      expired', kept', moved' := expired, kept, moved;
      var popped := pending[|pending| - 1];
      pending := pending[..|pending| - 1];
      match f(popped) {
        case Drop =>
        case Expire => expired' := expired + [popped];
        case Keep => pending, kept' := [popped] + pending, kept + 1;
        case ToSell => sell, moved' := [popped] + sell, moved + 1;
        case ToBuy => buy, moved' := [popped] + buy, moved + 1;
      }
    }

    /** The counting loop of flush_pending_to_active and purge_expired_pending_orders. */
    method SweepPending(f: Payload -> Fate) returns (moved: nat, kept: nat, expired: seq<Payload>)
      modifies `pending, `sell, `buy
      ensures Rotation(View(), expired, kept, moved) == Filtered(Rotation(old(View()), [], 0, 0), old(pending), [], f)
    {
      moved, kept, expired := 0, 0, [];
      ghost var start := Rotation(View(), [], 0, 0);
      ghost var turning := start;
      var n := |pending|;
      ghost var goal := Turns(start, n, f);
      for i := 0 to n
        invariant turning == Rotation(View(), expired, kept, moved)
        invariant Turns(turning, n - i, f) == goal
      {
        if pending == [] {
          TurnsOfNothing(turning, n - i, f);
          break;
        }
        TurnsOnce(turning, n - i, f);
        turning := Turn(turning, f);
        expired, kept, moved := RotateOne(f, expired, kept, moved);
      }
      TurnsFilter(start, start.q.pending, [], f);
    }

    /** What stays pending keeps its order; what wakes joins its active list behind the orders
        already there; the expired orders come back oldest first. */
    method FlushPendingToActive(market: string, now: int, ttl: int)
      returns (moved: nat, kept: nat, expired: seq<Payload>)
      modifies `pending, `sell, `buy
      ensures var f := Classifier(Flush(market), now, ttl); var was := old(pending);
        && pending == Fated(was, f, Keep) && kept == |pending|
        && sell == Fated(was, f, ToSell) + old(sell) && buy == Fated(was, f, ToBuy) + old(buy)
        && moved == |Fated(was, f, ToSell)| + |Fated(was, f, ToBuy)|
        && expired == Reverse(Fated(was, f, Expire))
      ensures forall m: Market :: market == m.Name() ==>
        Flushed(old(pending), sell[..|sell| - |old(sell)|], buy[..|buy| - |old(buy)|], pending, m, now, ttl)
    {
      ghost var was := View();
      moved, kept, expired := SweepPending(Classifier(Flush(market), now, ttl));
      forall m: Market | market == m.Name()
        ensures Flushed(was.pending, sell[..|sell| - |was.sell|], buy[..|buy| - |was.buy|], pending, m, now, ttl)
      {
        FlushAddsExactly(was.pending, m, now, ttl);
        var f := Classifier(Flush(market), now, ttl);
        assert sell[..|sell| - |was.sell|] == Fated(was.pending, f, ToSell);
        assert buy[..|buy| - |was.buy|] == Fated(was.pending, f, ToBuy);
        assert pending == Fated(was.pending, f, Keep);
      }
    }

    method PurgeExpiredPendingOrders(now: int, ttl: int) returns (expired: seq<Payload>)
      modifies `pending, `sell, `buy
      ensures pending == Fated(old(pending), Classifier(Purge, now, ttl), Keep)
      ensures sell == old(sell) && buy == old(buy)
      ensures expired == Reverse(Fated(old(pending), Classifier(Purge, now, ttl), Expire))
      ensures forall p :: p in pending <==> p in old(pending) && p.Json? && !Expired(p.order, now, ttl)
    {
      PurgeMovesNothing(pending, now, ttl);
      FatedIs(pending, Classifier(Purge, now, ttl), Keep);
      var _, _, e := SweepPending(Classifier(Purge, now, ttl));
      expired := e;
    }
  }
}
