/** One account in the commerce store's file. An operation works on a copy it has read, changes the
    copy step by step and writes it back last, so what it did before it raised is never stored. */
module CommerceStore {
  import opened Orders
  import opened Commerce

  /** Normalize a copy: end the membership and expire the pending requests whose time has come,
      and keep only the newest requests. */
  method Normalize(stored: Account, now: int) returns (a: Account)
    ensures a == Normalized(stored, now)
  {
    a := stored;
    if a.membership.Some? && a.membership.value <= now {
      a := a.(membership := None);
    }
    var rs := [];
    for k := 0 to |a.requests|
      invariant |rs| == k && forall i :: 0 <= i < k ==> rs[i] == Aged(a.requests[i], now)
    {
      var r := a.requests[k];
      if r.status == Pending && r.expires <= now {
        r := r.(status := Expired);
      }
      rs := rs + [r];
    }
    assert rs == AllAged(a.requests, now);
    a := a.(requests := if |rs| > REQUEST_LIMIT then rs[..REQUEST_LIMIT] else rs);
  }

  /** The known sections among those asked for, each once, in the order asked. */
  method SelectSections(ids: seq<Option<Section>>) returns (picked: seq<Section>)
    ensures picked == Selected(ids)
  {
    picked := [];
    for k := 0 to |ids|
      invariant picked == Selected(ids[..k])
    {
      assert ids[..k + 1][..k] == ids[..k];
      if ids[k].Some? && ids[k].value !in picked {
        picked := picked + [ids[k].value];
      }
    }
    assert ids[..|ids|] == ids;
  }

  /** Position of the request in the list, or the list's length. */
  method FindRequest(rs: seq<Request>, id: string) returns (k: nat)
    ensures k == IndexOf(rs, id)
  {
    k := 0;
    while k < |rs| && rs[k].id != id
      invariant k <= |rs| && forall i :: 0 <= i < k ==> rs[i].id != id
    {
      k := k + 1;
    }
  }

  class Entry {
    var account: Account
    ghost var book: Book  // the account with everything that ever happened to it

    ghost predicate Valid()
      reads this
    {
      book.account == account && Sound(book)
    }

    constructor ()
      ensures Valid() && book == NewBook()
    {
      account, book := NewAccount(), NewBook();
      new;
      NewBookIsSound();
    }

    method UnlockSections(ticker: string, ids: seq<Option<Section>>, now: int) returns (ok: bool)
      requires Valid()
      modifies this
      ensures Valid()
      ensures var o := Commerce.UnlockSections(old(account), ticker, ids, now);
        ok == !o.Refused? && book == Posted(old(book), o)
    {
      hide Balanced, ChargedOnce, RequestsSound, CreditedOnce;
      ghost var o := Commerce.UnlockSections(account, ticker, ids, now);
      UnlockKeeps(book, ticker, ids, now);
      var picked := SelectSections(ids);
      if ticker == "" || picked == [] {
        return false;
      }
      var a := Normalize(account, now);
      var pending := Without(picked, UnlockedFor(a, ticker));
      if pending == [] {
        return true;
      }
      var total: int := Total(pending);
      if a.balance < total {
        return false;
      }
      a := a.(balance := a.balance - total);
      a := Open(a, ticker, set s | s in pending);
      a := Record(a, Txn("section-unlock", -total));
      account, book := a, Posted(book, o);
      return true;
    }

    method PurchaseProduct(p: Product, ticker: string, author: string, now: int) returns (ok: bool)
      requires Valid()
      modifies this
      ensures Valid()
      ensures var o := Commerce.PurchaseProduct(old(account), p, ticker, author, now);
        ok == !o.Refused? && book == Posted(old(book), o)
    {
      hide Balanced, ChargedOnce, RequestsSound, CreditedOnce;
      ghost var o := Commerce.PurchaseProduct(account, p, ticker, author, now);
      PurchaseKeeps(book, p, ticker, author, now);
      if (p == DeskPass && author == "") || (p == Bundle && ticker == "") {
        return false;
      }
      var a := Normalize(account, now);
      if Owns(a, p, ticker, author) {
        return true;
      }
      var cost: int := Cost(p);
      if a.balance < cost {
        return false;
      }
      a := a.(balance := a.balance - cost);
      var delta := -cost;
      if p == Membership {
        a := a.(membership := Some((if a.membership.Some? then a.membership.value else now) + 30 * DAY_SECONDS));
        a := a.(balance := a.balance + MEMBERSHIP_TOPUP);
        delta := MEMBERSHIP_TOPUP - cost;
      } else if p == DeskPass {
        a := a.(desks := a.desks + {author});
      } else if p == Bundle {
        a := Open(a, ticker, ALL_SECTIONS);
        a := a.(bundles := a.bundles + {ticker});
      } else {
        a := a.(owned := a.owned + {p});
      }
      a := Record(a, Txn("purchase", delta));
      account, book := a, Posted(book, o);
      return true;
    }

    /** The request id is a new random one. */
    method CreatePaymentRequest(pack: Pack, named: bool, id: string, now: int) returns (ok: bool)
      requires Valid() && id !in book.requested
      modifies this
      ensures Valid()
      ensures var o := Commerce.CreatePaymentRequest(old(account), pack, named, id, now);
        ok == !o.Refused? && book == Posted(old(book), o)
    {
      hide Balanced, ChargedOnce, RequestsSound, CreditedOnce;
      ghost var o := Commerce.CreatePaymentRequest(account, pack, named, id, now);
      CreateKeeps(book, pack, named, id, now);
      if !named {
        return false;
      }
      var a := Normalize(account, now);
      a := a.(requests := [Request(id, Pending, Credits(pack), now + 2 * DAY_SECONDS)] + a.requests);
      a := a.(requests := Take(a.requests, REQUEST_LIMIT));
      a := Record(a, Txn("payment-request", 0));
      account, book := a, Posted(book, o);
      return true;
    }

    /** Look for the request and decide it if it is pending; `found` is false where the store
        goes on to its next account. */
    method ReviewPaymentRequest(id: string, approve: bool, now: int) returns (found: bool)
      requires Valid()
      modifies this
      ensures Valid()
      ensures found == HasRequest(old(account), id, now)
      ensures book == if found then Posted(old(book), Review(old(account), id, approve, now)) else old(book)
    {
      hide Balanced, ChargedOnce, RequestsSound, CreditedOnce;
      var a := Normalize(account, now);
      var k := FindRequest(a.requests, id);
      if k == |a.requests| {
        return false;
      }
      ghost var o := Review(account, id, approve, now);
      ReviewKeeps(book, id, approve, now);
      var r := a.requests[k];
      if r.status != Pending {
        return true;
      }
      a := a.(requests := a.requests[k := r.(status := if approve then Approved else Rejected)]);
      if approve {
        a := a.(balance := a.balance + r.credits);
        a := Record(a, Txn("payment-approved", r.credits));
      } else {
        a := Record(a, Txn("payment-rejected", 0));
      }
      account, book := a, Posted(book, o);
      return true;
    }
  }
}
