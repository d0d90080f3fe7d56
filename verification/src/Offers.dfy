/** What each operation of the commerce store gives and takes, in figures. */
module Offers {
  import opened Orders
  import opened Commerce

  // ----- sections

  /** The known sections asked for. */
  function Asked(ids: seq<Option<Section>>): set<Section> {
    set k | 0 <= k < |ids| && ids[k].Some? :: ids[k].value
  }

  /** The price list, section by section. */
  function PriceOfAll(sections: set<Section>): nat {
    (if ModelBriefs in sections then 3 else 0) + (if EntryWindow in sections then 5 else 0)
    + (if ObjectiveData in sections then 6 else 0) + (if RiskMap in sections then 4 else 0)
    + (if ScenarioTree in sections then 4 else 0) + (if ModelNotes in sections then 7 else 0)
    + (if DecisionSheet in sections then 3 else 0)
  }

  lemma {:induction false} SelectedIsAsked(ids: seq<Option<Section>>)
    ensures forall s :: s in Selected(ids) <==> s in Asked(ids)
  {
    if ids != [] {
      var n := |ids| - 1;
      SelectedIsAsked(ids[..n]);
      assert Asked(ids) == Asked(ids[..n]) + if ids[n].Some? then {ids[n].value} else {};
    }
  }

  lemma {:induction false} WithoutExactly(sections: seq<Section>, have: set<Section>)
    ensures forall s :: s in Without(sections, have) <==> s in sections && s !in have
  {
    if sections != [] {
      WithoutExactly(sections[1..], have);
      assert sections == [sections[0]] + sections[1..];
    }
  }

  lemma {:induction false} TotalIsPriceOfAll(sections: seq<Section>)
    requires NoRepeats(sections)
    ensures Total(sections) == PriceOfAll(set s | s in sections)
  {
    if sections != [] {
      var rest := sections[1..];
      assert forall i, j :: 0 <= i < j < |rest| ==> rest[i] != rest[j];
      TotalIsPriceOfAll(rest);
      assert forall i :: 0 <= i < |rest| ==> rest[i] != sections[0];
      AddedPrice((set s | s in rest), sections[0]);
      assert (set s | s in sections) == (set s | s in rest) + {sections[0]};
    }
  }

  lemma AddedPrice(sections: set<Section>, s: Section)
    requires s !in sections
    ensures PriceOfAll(sections + {s}) == PriceOfAll(sections) + Price(s)
  {
  }

  /** What is asked for and not yet open, as the code lists it and as a set. */
  lemma PendingTells(ids: seq<Option<Section>>, have: set<Section>)
    ensures var pending, added := Without(Selected(ids), have), Asked(ids) - have;
      && (set s | s in pending) == added && Total(pending) == PriceOfAll(added)
      && (pending == [] <==> added == {}) && (Selected(ids) == [] <==> Asked(ids) == {})
  {
    SelectedIsAsked(ids);
    SelectedNoRepeats(ids);
    WithoutExactly(Selected(ids), have);
    WithoutIsNew(Selected(ids), have);
    var pending, added := Without(Selected(ids), have), Asked(ids) - have;
    TotalIsPriceOfAll(pending);
    assert (set s | s in pending) == added;
    if Selected(ids) != [] {
      assert Selected(ids)[0] in Asked(ids);
    }
    if pending != [] {
      assert pending[0] in added;
    }
  }

  /** A section unlock opens exactly the sections asked for that were not open, for exactly their
      prices; it is refused when nothing known is asked for or those cost more than there is, and
      does nothing when all are open. */
  lemma UnlockTells(a: Account, ticker: string, ids: seq<Option<Section>>, now: int)
    ensures var o := UnlockSections(a, ticker, ids, now);
      var added := Asked(ids) - UnlockedFor(a, ticker);
      && (o.Refused? <==> ticker == "" || Asked(ids) == {} || (added != {} && PriceOfAll(added) > a.balance))
      && (o.Idle? <==> ticker != "" && Asked(ids) != {} && added == {})
      && (o.Done? ==>
            && o.account.balance == a.balance - PriceOfAll(added)
            && UnlockedFor(o.account, ticker) == UnlockedFor(a, ticker) + Asked(ids)
            && (forall t :: t != ticker ==> UnlockedFor(o.account, t) == UnlockedFor(a, t))
            && o.account.owned == a.owned && o.account.desks == a.desks && o.account.bundles == a.bundles)
  {
    hide Selected, Without, Total, PriceOfAll, Asked, Take, AllAged;
    var have := UnlockedFor(a, ticker);
    PendingTells(ids, have);
    assert have + (Asked(ids) - have) == have + Asked(ids);
  }

  // ----- products

  /** The account has what the product stands for; a membership can always be prolonged. */
  predicate Has(a: Account, p: Product, ticker: string, author: string) {
    match p
    case Membership => false
    case DeskPass => author in a.desks
    case FollowPass => FollowPass in a.owned
    case Alerts => Alerts in a.owned
    case RecentRank => RecentRank in a.owned
    case Bundle => ticker in a.bundles
    case Archive => Archive in a.owned
  }

  /** What a purchase takes; a membership gives thirty credits back. */
  function Takes(p: Product): int {
    match p
    case Membership => 12 - 30
    case DeskPass => 7
    case FollowPass => 4
    case Alerts => 4
    case RecentRank => 3
    case Bundle => 13
    case Archive => 6
  }

  /** A bundle costs two fifths of its sections, rounded, and not less than nine. */
  lemma BundleIsDiscounted()
    ensures var all: int := PriceOfAll(ALL_SECTIONS);
      -5 <= 10 * Takes(Bundle) - 4 * all <= 5 && Takes(Bundle) >= 9
  {
  }

  /** The entitlements other than the bought one are as they were. */
  ghost predicate OnlyGrants(a: Account, a': Account, p: Product, ticker: string, author: string) {
    && (forall q :: q != p && q != DeskPass && q != Bundle ==>
          (Has(a', q, ticker, author) <==> Has(a, q, ticker, author)))
    && a'.desks == (if p == DeskPass then a.desks + {author} else a.desks)
    && a'.bundles == (if p == Bundle then a.bundles + {ticker} else a.bundles)
    && (forall t :: UnlockedFor(a', t)
          == UnlockedFor(a, t) + if p == Bundle && t == ticker then ALL_SECTIONS else {})
  }

  /** When a membership that is bought now ends: thirty days after the running one, or after now. */
  function ProlongedTo(a: Account, now: int): int {
    30 * 24 * 3600 + if a.membership.Some? && a.membership.value > now then a.membership.value else now
  }

  /** A purchase gives what was bought and nothing else, for its price; it is refused without the
      desk or the ticker it needs or without the credits, and does nothing when the account has it. */
  lemma PurchaseTells(a: Account, p: Product, ticker: string, author: string, now: int)
    ensures var o := PurchaseProduct(a, p, ticker, author, now);
      var lacking := (p == DeskPass && author == "") || (p == Bundle && ticker == "");
      var price: int := if p == Membership then 12 else Takes(p);
      && (o.Refused? <==> lacking || (!Has(a, p, ticker, author) && a.balance < price))
      && (o.Idle? <==> !lacking && Has(a, p, ticker, author))
      && (o.Done? ==>
            && o.account.balance == a.balance - Takes(p)
            && (p == Membership || Has(o.account, p, ticker, author)) && OnlyGrants(a, o.account, p, ticker, author)
            && (p == Membership ==> o.account.membership == Some(ProlongedTo(a, now)))
            && (p != Membership && a.membership.Some? && a.membership.value > now ==>
                  o.account.membership == a.membership))
  {
  }

  // ----- payment requests

  function CreditsOf(pack: Pack): int {
    match pack
    case Starter => 24
    case Plus => 70 + 10
    case Pro => 180 + 30
  }

  /** The twenty newest requests stay; a pending one whose time has come is expired. */
  predicate AgedFrom(rs: seq<Request>, rs': seq<Request>, now: int) {
    && |rs'| == (if |rs| > 20 then 20 else |rs|)
    && (forall k :: 0 <= k < |rs'| ==>
          && rs'[k] == rs[k].(status := rs'[k].status)
          && rs'[k].status == if rs[k].status == Pending && rs[k].expires <= now then Expired else rs[k].status)
  }

  lemma NormalizedTells(a: Account, now: int)
    ensures var n := Normalized(a, now);
      && n == a.(membership := n.membership, requests := n.requests)
      && n.membership == (if a.membership.Some? && a.membership.value <= now then None else a.membership)
      && AgedFrom(a.requests, n.requests, now)
  {
  }

  /** A request for a pack is put first, pending for two days and worth the pack's credits, and
      changes no balance; the oldest beyond twenty goes. */
  lemma RequestTells(a: Account, pack: Pack, named: bool, id: string, now: int)
    ensures var o := CreatePaymentRequest(a, pack, named, id, now);
      && (o.Refused? <==> !named) && !o.Idle?
      && (o.Done? ==>
            && o.account.balance == a.balance && 1 <= |o.account.requests| <= 20
            && var r, rest := o.account.requests[0], Normalized(a, now).requests;
              && r.id == id && r.status == Pending && r.credits == CreditsOf(pack)
              && r.expires == now + 48 * 3600
              && o.account.requests[1..] == if |rest| > 19 then rest[..19] else rest)
  {
  }

  /** A decision on a request that is pending takes effect on it alone: approval adds its credits,
      rejection adds none; one that is decided or expired stays as it is. */
  lemma ReviewTells(a: Account, id: string, approve: bool, now: int)
    requires HasRequest(a, id, now)
    ensures var o, rs := Review(a, id, approve, now), Normalized(a, now).requests;
      exists k :: 0 <= k < |rs| && rs[k].id == id && (forall j :: 0 <= j < k ==> rs[j].id != id)
        && !o.Refused? && (o.Idle? <==> rs[k].status != Pending)
        && (o.Done? ==>
              && o.account.requests == rs[k := rs[k].(status := if approve then Approved else Rejected)]
              && o.account.balance == a.balance + if approve then rs[k].credits else 0)
  {
    var k := IndexOf(Normalized(a, now).requests, id);
  }

  predicate Entered(b: Book, b': Book) {
    && (b'.history == b.history || (|b'.history| == |b.history| + 1 && b'.history[1..] == b.history))
    && Sum(b'.history) - Sum(b.history) == b'.account.balance - b.account.balance
  }

  lemma UnlockIsEntered(b: Book, ticker: string, ids: seq<Option<Section>>, now: int)
    ensures Entered(b, Posted(b, UnlockSections(b.account, ticker, ids, now)))
  {
    hide Selected, Without, Total, AllAged;
  }

  lemma PurchaseIsEntered(b: Book, p: Product, ticker: string, author: string, now: int)
    ensures Entered(b, Posted(b, PurchaseProduct(b.account, p, ticker, author, now)))
  {
  }

  lemma ReviewIsEntered(b: Book, id: string, approve: bool, now: int)
    requires HasRequest(b.account, id, now)
    ensures Entered(b, Posted(b, Review(b.account, id, approve, now)))
  {
  }

  /** Each operation enters in the history exactly what it changes the balance by. */
  lemma HistoryTells(b: Book, op: Operation, now: int)
    ensures Entered(b, Operate(b, op, now))
  {
    hide UnlockSections, PurchaseProduct, Review;
    match op
    case Unlock(ticker, ids) => UnlockIsEntered(b, ticker, ids, now);
    case Purchase(p, ticker, author) => PurchaseIsEntered(b, p, ticker, author, now);
    case Decide(id, approve) => if HasRequest(b.account, id, now) { ReviewIsEntered(b, id, approve, now); }
    case _ =>
  }
}
