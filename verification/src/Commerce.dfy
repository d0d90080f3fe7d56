/** Credit accounts of the commerce store: prices, unlocks, purchases and top-up requests. */
module Commerce {
  import opened Orders

  datatype Section = ModelBriefs | EntryWindow | ObjectiveData | RiskMap | ScenarioTree | ModelNotes | DecisionSheet

  const ALL_SECTIONS := {ModelBriefs, EntryWindow, ObjectiveData, RiskMap, ScenarioTree, ModelNotes, DecisionSheet}

  /** SECTION_COSTS */
  function Price(s: Section): nat {
    match s
    case ModelBriefs => 3 case EntryWindow => 5 case ObjectiveData => 6 case RiskMap => 4
    case ScenarioTree => 4 case ModelNotes => 7 case DecisionSheet => 3
  }

  datatype Product = Membership | DeskPass | FollowPass | Alerts | RecentRank | Bundle | Archive

  /** PRODUCT_COSTS; the bundle is 40% of the sections' total, rounded. */
  function Cost(p: Product): nat {
    match p
    case Membership => 12 case DeskPass => 7 case FollowPass => 4 case Alerts => 4
    case RecentRank => 3 case Bundle => 13 case Archive => 6
  }

  datatype Pack = Starter | Plus | Pro

  /** CREDIT_PACKS: credits and bonus together */
  function Credits(p: Pack): nat {
    match p case Starter => 24 case Plus => 80 case Pro => 210
  }

  const STARTER_CREDITS := 24
  const MEMBERSHIP_TOPUP := 30
  const DAY_SECONDS := 86_400
  const LOG_LIMIT := 30
  const REQUEST_LIMIT := 20

  datatype RequestStatus = Pending | Approved | Rejected | Expired

  datatype Request = Request(id: string, status: RequestStatus, credits: nat, expires: int)

  datatype Txn = Txn(kind: string, delta: int)

  datatype Account = Account(
    balance: int,
    membership: Option<int>,  // expiry, when active
    owned: set<Product>,      // alerts, archive, recent-rank and follow-pass entitlements
    desks: set<string>,
    bundles: set<string>,
    unlocked: map<string, set<Section>>,
    requests: seq<Request>,   // newest first
    log: seq<Txn>)            // newest first

  function NewAccount(): Account {
    Account(STARTER_CREDITS, None, {}, {}, {}, map[], [], [])
  }

  function Take<T>(s: seq<T>, n: nat): seq<T> {
    if |s| <= n then s else s[..n]
  }

  function Aged(r: Request, now: int): Request {
    if r.status == Pending && r.expires <= now then r.(status := Expired) else r
  }

  function AllAged(rs: seq<Request>, now: int): (aged: seq<Request>)
    ensures |aged| == |rs| && forall i :: 0 <= i < |rs| ==> aged[i] == Aged(rs[i], now)
  {
    if rs == [] then [] else [Aged(rs[0], now)] + AllAged(rs[1..], now)
  }

  /** _normalize_account_runtime */
  function Normalized(a: Account, now: int): Account {
    a.(membership := if a.membership.Some? && a.membership.value > now then a.membership else None,
       requests := Take(AllAged(a.requests, now), REQUEST_LIMIT))
  }

  /** _record_transaction */
  function Record(a: Account, t: Txn): Account {
    a.(log := Take([t] + a.log, LOG_LIMIT))
  }

  /** What an operation is remembered for, beside its entry in the log. */
  datatype Mark = NoMark | Charged(ticker: string, sections: seq<Section>) | Opened(id: string, expires: int)
    | Credited(id: string, at: int) | Turned(id: string)

  /** An error before anything is written; nothing to do; or a new account state with its
      entry in the log, if it makes one. */
  datatype Outcome = Refused | Idle | Done(account: Account, txn: Option<Txn>, mark: Mark)

  function Logged(a: Account, t: Txn, mark: Mark): Outcome {
    Done(Record(a, t), Some(t), mark)
  }

  // ----- unlock_sections

  /** The known section ids of a request, each once, in order; an unknown id is None. */
  function Selected(ids: seq<Option<Section>>): seq<Section> {
    if ids == [] then []
    else
      var before, last := Selected(ids[..|ids| - 1]), ids[|ids| - 1];
      if last.None? || last.value in before then before else before + [last.value]
  }

  function Without(sections: seq<Section>, have: set<Section>): seq<Section> {
    if sections == [] then []
    else if sections[0] in have then Without(sections[1..], have)
    else [sections[0]] + Without(sections[1..], have)
  }

  function Total(sections: seq<Section>): nat {
    if sections == [] then 0 else Price(sections[0]) + Total(sections[1..])
  }

  function UnlockedFor(a: Account, ticker: string): set<Section> {
    if ticker in a.unlocked then a.unlocked[ticker] else {}
  }

  function Open(a: Account, ticker: string, more: set<Section>): Account {
    a.(unlocked := a.unlocked[ticker := UnlockedFor(a, ticker) + more])
  }

  function UnlockSections(a0: Account, ticker: string, ids: seq<Option<Section>>, now: int): Outcome {
    var a := Normalized(a0, now);
    var pending := Without(Selected(ids), UnlockedFor(a, ticker));
    var total: int := Total(pending);
    if ticker == "" || Selected(ids) == [] then Refused
    else if pending == [] then Idle
    else if a.balance < total then Refused
    else
      Logged(Open(a.(balance := a.balance - total), ticker, set s | s in pending),
             Txn("section-unlock", -total), Charged(ticker, pending))
  }

  // ----- purchase_product

  predicate Owns(a: Account, p: Product, ticker: string, author: string) {
    match p
    case Membership => false
    case DeskPass => author in a.desks
    case Bundle => ticker in a.bundles
    case _ => p in a.owned
  }

  function Granted(a: Account, p: Product, ticker: string, author: string, now: int): Account {
    match p
    case Membership =>
      var base := if a.membership.Some? && a.membership.value > now then a.membership.value else now;
      a.(membership := Some(base + 30 * DAY_SECONDS), balance := a.balance + MEMBERSHIP_TOPUP)
    case DeskPass => a.(desks := a.desks + {author})
    case Bundle => Open(a, ticker, ALL_SECTIONS).(bundles := a.bundles + {ticker})
    case _ => a.(owned := a.owned + {p})
  }

  function PurchaseProduct(a0: Account, p: Product, ticker: string, author: string, now: int): Outcome {
    var a := Normalized(a0, now);
    var cost: int := Cost(p);
    var delta := if p == Membership then MEMBERSHIP_TOPUP - cost else -cost;
    if (p == DeskPass && author == "") || (p == Bundle && ticker == "") then Refused
    else if Owns(a, p, ticker, author) then Idle
    else if a.balance < cost then Refused
    else Logged(Granted(a.(balance := a.balance - cost), p, ticker, author, now), Txn("purchase", delta), NoMark)
  }

  // ----- payment requests

  /** `named` is false for a bank transfer without a depositor name. */
  function CreatePaymentRequest(a0: Account, pack: Pack, named: bool, id: string, now: int): Outcome {
    var a := Normalized(a0, now);
    var r := Request(id, Pending, Credits(pack), now + 2 * DAY_SECONDS);
    if !named then Refused
    else Logged(a.(requests := Take([r] + a.requests, REQUEST_LIMIT)), Txn("payment-request", 0), Opened(id, r.expires))
  }

  function IndexOf(rs: seq<Request>, id: string): (k: nat)
    ensures k <= |rs| && (forall i :: 0 <= i < k ==> rs[i].id != id) && (k < |rs| ==> rs[k].id == id)
  {
    if rs == [] || rs[0].id == id then 0 else 1 + IndexOf(rs[1..], id)
  }

  predicate HasRequest(a: Account, id: string, now: int) {
    var rs := Normalized(a, now).requests;
    IndexOf(rs, id) < |rs|
  }

  /** The part of review_payment_request that concerns the account holding the request. */
  function Review(a0: Account, id: string, approve: bool, now: int): Outcome
    requires HasRequest(a0, id, now)
  {
    var a := Normalized(a0, now);
    var k := IndexOf(a.requests, id);
    var r := a.requests[k];
    if r.status != Pending then Idle
    else if approve then
      Logged(a.(requests := a.requests[k := r.(status := Approved)], balance := a.balance + r.credits),
             Txn("payment-approved", r.credits), Credited(id, now))
    else
      Logged(a.(requests := a.requests[k := r.(status := Rejected)]), Txn("payment-rejected", 0), Turned(id))
  }

  /** snapshot, alert preferences and the request listing only store the normalized account. */
  function Refresh(a: Account, now: int): Outcome {
    Done(Normalized(a, now), None, NoMark)
  }

  // ----- an account with everything that ever happened to it

  datatype Book = Book(
    account: Account,
    history: seq<Txn>,                // newest first, unlimited
    charged: seq<(string, Section)>,  // what section unlocks were paid for
    requested: map<string, int>,         // request ids ever requested, with their expiry
    credited: seq<(string, int)>,     // request id and time of each top-up
    turned: set<string>)              // rejected requests

  function Charges(ticker: string, sections: seq<Section>): (r: seq<(string, Section)>)
    ensures |r| == |sections| && forall i :: 0 <= i < |r| ==> r[i] == (ticker, sections[i])
  {
    seq(|sections|, i requires 0 <= i < |sections| => (ticker, sections[i]))
  }

  function Posted(b: Book, o: Outcome): Book {
    match o
    case Done(account, txn, mark) =>
      var b' := b.(account := account, history := if txn.Some? then [txn.value] + b.history else b.history);
      (match mark
       case NoMark => b'
       case Charged(ticker, sections) => b'.(charged := b.charged + Charges(ticker, sections))
       case Opened(id, expires) => b'.(requested := b.requested[id := expires])
       case Credited(id, at) => b'.(credited := b.credited + [(id, at)])
       case Turned(id) => b'.(turned := b.turned + {id}))
    case _ => b
  }

  function NewBook(): Book {
    Book(NewAccount(), [], [], map[], [], {})
  }

  function Sum(ts: seq<Txn>): int {
    if ts == [] then 0 else ts[0].delta + Sum(ts[1..])
  }

  // ----- the invariant

  /** The balance is the 24 starter credits plus every delta ever recorded, never negative, and
      the stored log is the newest thirty entries of that record. */
  predicate Balanced(b: Book) {
    && b.account.balance == 24 + Sum(b.history) >= 0
    && b.account.log == if |b.history| > 30 then b.history[..30] else b.history
  }

  predicate NoRepeats<T(==)>(s: seq<T>) {
    forall i, j :: 0 <= i < j < |s| ==> s[i] != s[j]
  }

  /** No section is paid for twice by section unlocks, and what was paid for is open. */
  predicate ChargedOnce(b: Book) {
    && NoRepeats(b.charged)
    && forall i :: 0 <= i < |b.charged| ==> b.charged[i].1 in UnlockedFor(b.account, b.charged[i].0)
  }

  predicate CreditedId(b: Book, id: string) {
    exists i :: 0 <= i < |b.credited| && b.credited[i].0 == id
  }

  /** A request in the list is one that was requested; while pending it was neither credited nor
      rejected. */
  predicate RequestsSound(b: Book) {
    var rs := b.account.requests;
    && |rs| <= 20
    && (forall i :: 0 <= i < |rs| ==> rs[i].id in b.requested && b.requested[rs[i].id] == rs[i].expires)
    && (forall i :: 0 <= i < |rs| && rs[i].status == Pending ==> !CreditedId(b, rs[i].id) && rs[i].id !in b.turned)
    && (forall i, j :: 0 <= i < j < |rs| ==> rs[i].id != rs[j].id)
  }

  /** Each request is credited at most once, before it expires, and never when rejected. */
  predicate CreditedOnce(b: Book) {
    && (forall i, j :: 0 <= i < j < |b.credited| ==> b.credited[i].0 != b.credited[j].0)
    && (forall i :: 0 <= i < |b.credited| ==>
          var (id, at) := b.credited[i]; id in b.requested && at < b.requested[id] && id !in b.turned)
    && (forall id :: id in b.turned ==> id in b.requested)
  }

  predicate Sound(b: Book) {
    Balanced(b) && ChargedOnce(b) && RequestsSound(b) && CreditedOnce(b)
  }

  /** What is open stays open. */
  predicate OnlyOpens(a: Account, a': Account) {
    forall t :: t in a.unlocked ==> UnlockedFor(a, t) <= UnlockedFor(a', t)
  }

  // ----- each operation keeps the invariant

  /** Recording an entry whose amount is the change of balance keeps the account balanced. */
  lemma LoggedKeepsBalanced(b: Book, a: Account, t: Txn, mark: Mark)
    requires Balanced(b) && a.log == b.account.log
    requires a.balance == b.account.balance + t.delta >= 0
    ensures Balanced(Posted(b, Logged(a, t, mark)))
  {
  }

  lemma {:induction false} SelectedNoRepeats(ids: seq<Option<Section>>)
    ensures NoRepeats(Selected(ids))
  {
    if ids != [] {
      SelectedNoRepeats(ids[..|ids| - 1]);
    }
  }

  lemma {:induction false} WithoutIsNew(sections: seq<Section>, have: set<Section>)
    requires NoRepeats(sections)
    ensures var r := Without(sections, have);
      && NoRepeats(r)
      && (forall i :: 0 <= i < |r| ==> r[i] in sections && r[i] !in have)
  {
    if sections != [] {
      WithoutIsNew(sections[1..], have);
      assert forall s :: s in sections[1..] ==> s in sections && s != sections[0];
    }
  }

  lemma NormalizedKeeps(b: Book, now: int)
    requires Sound(b)
    ensures Sound(b.(account := Normalized(b.account, now)))
  {
  }

  lemma ChargeKeepsOnce(b: Book, a: Account, ticker: string, sections: seq<Section>)
    requires ChargedOnce(b) && NoRepeats(sections)
    requires forall i :: 0 <= i < |sections| ==> sections[i] !in UnlockedFor(b.account, ticker)
    requires OnlyOpens(b.account, a) && forall i :: 0 <= i < |sections| ==> sections[i] in UnlockedFor(a, ticker)
    ensures ChargedOnce(b.(account := a, charged := b.charged + Charges(ticker, sections)))
  {
  }

  lemma OpenOnlyOpens(a: Account, ticker: string, more: set<Section>)
    ensures OnlyOpens(a, Open(a, ticker, more)) && more <= UnlockedFor(Open(a, ticker, more), ticker)
  {
  }

  /** The two request invariants do not look at the rest of the account. */
  lemma RequestsUntouched(b: Book, b': Book)
    requires RequestsSound(b) && CreditedOnce(b)
    requires b'.account.requests == b.account.requests && b'.requested == b.requested
    requires b'.credited == b.credited && b'.turned == b.turned
    ensures RequestsSound(b') && CreditedOnce(b')
  {
  }

  lemma UnlockKeeps(b: Book, ticker: string, ids: seq<Option<Section>>, now: int)
    requires Sound(b)
    ensures Sound(Posted(b, UnlockSections(b.account, ticker, ids, now)))
  {
    hide Balanced, RequestsSound, CreditedOnce, Without, Selected, Total;
    NormalizedKeeps(b, now);
    var a := Normalized(b.account, now);
    var n := b.(account := a);
    var pending := Without(Selected(ids), UnlockedFor(a, ticker));
    var o := UnlockSections(b.account, ticker, ids, now);
    if o.Done? {
      SelectedNoRepeats(ids);
      WithoutIsNew(Selected(ids), UnlockedFor(a, ticker));
      var total: int := Total(pending);
      var paid := a.(balance := a.balance - total);
      var more := set s | s in pending;
      OpenOnlyOpens(paid, ticker, more);
      LoggedKeepsBalanced(n, Open(paid, ticker, more), o.txn.value, o.mark);
      ChargeKeepsOnce(n, o.account, ticker, pending);
      RequestsUntouched(n, Posted(n, o));
    }
  }

  lemma GrantedKeeps(a: Account, p: Product, ticker: string, author: string, now: int)
    ensures var a' := Granted(a, p, ticker, author, now);
      && OnlyOpens(a, a') && a'.requests == a.requests && a'.log == a.log
      && a'.balance == a.balance + if p == Membership then MEMBERSHIP_TOPUP else 0
  {
  }

  lemma StaysCharged(b: Book, b': Book)
    requires ChargedOnce(b) && b'.charged == b.charged && OnlyOpens(b.account, b'.account)
    ensures ChargedOnce(b')
  {
  }

  lemma PurchaseKeeps(b: Book, p: Product, ticker: string, author: string, now: int)
    requires Sound(b)
    ensures Sound(Posted(b, PurchaseProduct(b.account, p, ticker, author, now)))
  {
    NormalizedKeeps(b, now);
    var a := Normalized(b.account, now);
    var n := b.(account := a);
    var o := PurchaseProduct(b.account, p, ticker, author, now);
    if o.Done? {
      var cost: int := Cost(p);
      var paid := a.(balance := a.balance - cost);
      GrantedKeeps(paid, p, ticker, author, now);
      LoggedKeepsBalanced(n, Granted(paid, p, ticker, author, now), o.txn.value, o.mark);
      StaysCharged(n, Posted(n, o));
      RequestsUntouched(n, Posted(n, o));
    }
  }

  lemma RequestAdded(b: Book, r: Request, b': Book)
    requires RequestsSound(b) && CreditedOnce(b) && r.id !in b.requested
    requires b'.account.requests == Take([r] + b.account.requests, REQUEST_LIMIT)
    requires b'.requested == b.requested[r.id := r.expires] && b'.credited == b.credited && b'.turned == b.turned
    ensures RequestsSound(b') && CreditedOnce(b')
  {
    assert forall id :: CreditedId(b', id) == CreditedId(b, id);
    var rs, rs' := b.account.requests, b'.account.requests;
    assert forall i :: 0 < i < |rs'| ==> rs'[i] == rs[i - 1];
  }

  lemma CreateKeeps(b: Book, pack: Pack, named: bool, id: string, now: int)
    requires Sound(b) && id !in b.requested
    ensures Sound(Posted(b, CreatePaymentRequest(b.account, pack, named, id, now)))
  {
    NormalizedKeeps(b, now);
    var a := Normalized(b.account, now);
    var n := b.(account := a);
    var o := CreatePaymentRequest(b.account, pack, named, id, now);
    if o.Done? {
      var r := Request(id, Pending, Credits(pack), now + 2 * DAY_SECONDS);
      LoggedKeepsBalanced(n, a.(requests := Take([r] + a.requests, REQUEST_LIMIT)), o.txn.value, o.mark);
      StaysCharged(n, Posted(n, o));
      RequestAdded(n, r, Posted(n, o));
    }
  }

  lemma PendingIsUnexpired(a0: Account, now: int, k: nat)
    requires k < |Normalized(a0, now).requests|
    ensures var r := Normalized(a0, now).requests[k]; r.status == Pending ==> now < r.expires
  {
  }

  lemma RequestSettled(b: Book, k: nat, approve: bool, now: int, b': Book)
    requires RequestsSound(b) && CreditedOnce(b) && k < |b.account.requests|
    requires b.account.requests[k].status == Pending && now < b.account.requests[k].expires
    requires var r := b.account.requests[k];
      && b'.account.requests == b.account.requests[k := r.(status := if approve then Approved else Rejected)]
      && b'.requested == b.requested
      && b'.credited == (if approve then b.credited + [(r.id, now)] else b.credited)
      && b'.turned == (if approve then b.turned else b.turned + {r.id})
    ensures RequestsSound(b') && CreditedOnce(b')
  {
  }

  lemma ReviewKeeps(b: Book, id: string, approve: bool, now: int)
    requires Sound(b) && HasRequest(b.account, id, now)
    ensures Sound(Posted(b, Review(b.account, id, approve, now)))
  {
    NormalizedKeeps(b, now);
    var a := Normalized(b.account, now);
    var n := b.(account := a);
    var o := Review(b.account, id, approve, now);
    if o.Done? {
      var k := IndexOf(a.requests, id);
      var r := a.requests[k];
      var a' := a.(requests := a.requests[k := r.(status := if approve then Approved else Rejected)],
                   balance := a.balance + if approve then r.credits else 0);
      LoggedKeepsBalanced(n, a', o.txn.value, o.mark);
      StaysCharged(n, Posted(n, o));
      PendingIsUnexpired(b.account, now, k);
      RequestSettled(n, k, approve, now, Posted(n, o));
    }
  }

  lemma RefreshKeeps(b: Book, now: int)
    requires Sound(b)
    ensures Sound(Posted(b, Refresh(b.account, now)))
  {
    NormalizedKeeps(b, now);
  }

  // ----- whole runs

  datatype Operation =
    | Unlock(ticker: string, ids: seq<Option<Section>>)
    | Purchase(product: Product, ticker: string, author: string)
    | Ask(pack: Pack, named: bool, id: string)
    | Decide(id: string, approve: bool)
    | Look

  function Operate(b: Book, op: Operation, now: int): Book {
    match op
    case Unlock(ticker, ids) => Posted(b, UnlockSections(b.account, ticker, ids, now))
    case Purchase(p, ticker, author) => Posted(b, PurchaseProduct(b.account, p, ticker, author, now))
    case Ask(pack, named, id) =>
      if id in b.requested then b else Posted(b, CreatePaymentRequest(b.account, pack, named, id, now))
    case Decide(id, approve) =>
      if HasRequest(b.account, id, now) then Posted(b, Review(b.account, id, approve, now)) else b
    case Look => Posted(b, Refresh(b.account, now))
  }

  /** Operations with the clock reading each of them takes; the clock may go back. */
  function Run(b: Book, ops: seq<(Operation, int)>): Book
    decreases |ops|
  {
    if ops == [] then b else Run(Operate(b, ops[0].0, ops[0].1), ops[1..])
  }

  lemma OperationKeeps(b: Book, op: Operation, now: int)
    requires Sound(b)
    ensures Sound(Operate(b, op, now))
  {
    match op
    case Unlock(ticker, ids) => UnlockKeeps(b, ticker, ids, now);
    case Purchase(p, ticker, author) => PurchaseKeeps(b, p, ticker, author, now);
    case Ask(pack, named, id) => if id !in b.requested { CreateKeeps(b, pack, named, id, now); }
    case Decide(id, approve) => if HasRequest(b.account, id, now) { ReviewKeeps(b, id, approve, now); }
    case Look => RefreshKeeps(b, now);
  }

  /** In every reachable state the balance is what the record says, no section was charged
      twice, and no request was credited twice, late, or after rejection. */
  lemma {:induction false} AccountsStaySound(b: Book, ops: seq<(Operation, int)>)
    requires Sound(b)
    ensures Sound(Run(b, ops))
    decreases |ops|
  {
    if ops != [] {
      OperationKeeps(b, ops[0].0, ops[0].1);
      AccountsStaySound(Operate(b, ops[0].0, ops[0].1), ops[1..]);
    }
  }

  lemma NewBookIsSound()
    ensures Sound(NewBook())
  {
  }

  lemma OperationOnlyOpens(b: Book, op: Operation, now: int)
    ensures OnlyOpens(b.account, Operate(b, op, now).account)
  {
    var a := Normalized(b.account, now);
    match op
    case Unlock(ticker, ids) =>
      OpenOnlyOpens(a, ticker, set s | s in Without(Selected(ids), UnlockedFor(a, ticker)));
    case Purchase(p, ticker, author) =>
      var cost: int := Cost(p);
      GrantedKeeps(a.(balance := a.balance - cost), p, ticker, author, now);
    case _ =>
  }

  /** What an account has unlocked stays unlocked over any run. */
  lemma {:induction false} UnlocksNeverShrink(b: Book, ops: seq<(Operation, int)>, ticker: string)
    ensures UnlockedFor(b.account, ticker) <= UnlockedFor(Run(b, ops).account, ticker)
    decreases |ops|
  {
    if ops != [] {
      OperationOnlyOpens(b, ops[0].0, ops[0].1);
      UnlocksNeverShrink(Operate(b, ops[0].0, ops[0].1), ops[1..], ticker);
    }
  }

  /** The section prices a section unlock takes are those of the sections not yet open. */
  lemma UnlockChargesOnlyNew(b: Book, ticker: string, ids: seq<Option<Section>>, now: int)
    ensures var o := UnlockSections(b.account, ticker, ids, now);
      o.Done? ==>
        && o.mark.Charged? && NoRepeats(o.mark.sections)
        && b.account.balance - o.account.balance == Total(o.mark.sections)
        && (forall s :: s in o.mark.sections ==> s !in UnlockedFor(b.account, ticker))
        && UnlockedFor(o.account, ticker) == UnlockedFor(b.account, ticker) + (set s | s in o.mark.sections)
  {
    SelectedNoRepeats(ids);
    WithoutIsNew(Selected(ids), UnlockedFor(b.account, ticker));
  }
}
