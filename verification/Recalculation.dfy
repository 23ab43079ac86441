// Recalculating a set of customers, one campaign at a time.
module Recalculation {
  import opened Basics
  import opened Models
  import opened Database
  import opened Progress
  import opened Coherence
  import opened Freshness

  /** The customers as a list, in whatever order a set is listed. */
  method Listed(customers: set<Id>) returns (list: seq<Id>)
    ensures forall k :: k in list <==> k in customers
  {
    var rest := customers;
    list := [];
    while rest != {}
      invariant rest <= customers
      invariant forall k :: k in list <==> k in customers && k !in rest
    {
      var k :| k in rest;
      list, rest := list + [k], rest - {k};
    }
  }

  /** One campaign and a set of customers, after other campaigns have been done. */
  method RecalculateCampaign(session: Session, c: Id, customers: set<Id>, ghost before: Cache, ghost done: set<Id>)
    returns (r: Result<nat, Error>)
    requires LaddersReady(session.tiers) && c in ActiveCampaigns(session.campaigns) && c !in done
    requires SoFar(BooksOf(session), before, CacheOf(session), done, customers)
    modifies session`progress, session`progressLog
    ensures r.Ok? ==> SoFar(BooksOf(session), before, CacheOf(session), done + {c}, customers)
    ensures r.Err? ==> !AllFresh(BooksOf(session), customers)
  {
    var list := Listed(customers);
    ghost var books, mid := BooksOf(session), CacheOf(session);
    ghost var rows := FreshRows(books, c, list);
    r := RecalculateAffectedCustomers(session, c, list, 500, rows);
    if r.Ok? {
      RefreshOne(books, before, mid, done, customers, c, list, rows);
    } else {
      ghost var k :| k in list && k !in rows;
      assert !Fresh(books, c, k).Ok?;
    }
  }

  /** Every customer with a record in the period; no other entry moves. */
  method RecalculateCampaignProgress(session: Session, c: Id) returns (r: Result<nat, Error>)
    requires LaddersReady(session.tiers)
    modifies session`progress, session`progressLog
    ensures r.Ok? <==> (LiveCampaign(session.campaigns, c)
                        && FreshIn(BooksOf(session), {c}, WindowCustomers(session.sales, session.campaigns[c])))
    ensures r.Ok? ==> Refreshed(BooksOf(session), old(CacheOf(session)), CacheOf(session), {c},
                                WindowCustomers(session.sales, session.campaigns[c]))
    ensures r.Ok? && Consistent(old(CacheOf(session))) ==> Consistent(CacheOf(session))
  {
    if c !in session.campaigns || session.campaigns[c].deleted {
      return Err(CampaignNotFound);
    }
    var customers := WindowCustomers(session.sales, session.campaigns[c]);
    var list := Listed(customers);
    ghost var books, before := BooksOf(session), CacheOf(session);
    ghost var rows := FreshRows(books, c, list);
    NothingRefreshed(books, before, customers);
    r := RecalculateAffectedCustomers(session, c, list, 500, rows);
    if r.Ok? {
      RefreshOne(books, before, before, {}, customers, c, list, rows);
      assert {} + {c} == {c};
    } else {
      ghost var k :| k in list && k !in rows;
      assert !Fresh(books, c, k).Ok?;
    }
  }
}
