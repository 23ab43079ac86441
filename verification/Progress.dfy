// The progress engine: a cached snapshot per campaign and customer, recomputed from the
// ledger, with domain events for what changed.
module Progress {
  import opened Basics
  import opened Models
  import opened Ladder
  import opened Totals
  import opened Database

  // ----- one snapshot -----

  function IdOf(rung: Option<Rung>): Option<Id> {
    match rung
    case None => None
    case Some(r) => Some(r.id)
  }

  function SnapshotOf(total: nat, currency: string, stats: Stats, placement: TierResult): Snapshot {
    Snapshot(total, currency, IdOf(placement.current), IdOf(placement.next),
             placement.amountLeft, placement.basisPoints, stats.(noTiers := placement.noTiers))
  }

  /** A fresh recomputation from a campaign, its ladder and the customer's records. */
  function Recompute(campaign: Campaign, ladder: seq<Rung>, records: seq<SaleRecord>)
    : Result<Snapshot, Error>
    requires IsLadder(ladder)
  {
    match MergedRules(campaign.rules)
    case Err(e) => Err(e)
    case Ok(rules) =>
      match TotalOf(records, campaign.currency, rules)
      case Err(e) => Err(e)
      case Ok((total, stats)) => Ok(SnapshotOf(total, campaign.currency, stats, Place(total, ladder)))
  }

  predicate LiveCampaign(campaigns: map<Id, Campaign>, c: Id) {
    c in campaigns && !campaigns[c].deleted
  }

  predicate LiveCustomer(customers: map<Id, Customer>, company: Id, k: Id) {
    k in customers && customers[k].company == company && !customers[k].deleted
  }

  /** The tables a calculation reads. */
  datatype Books = Books(
    company: Id,
    campaigns: map<Id, Campaign>,
    tiers: map<Id, GiftTier>,
    customers: map<Id, Customer>,
    sales: map<SourceKey, SaleRecord>)

  function BooksOf(session: Session): Books
    reads session
  {
    Books(session.company, session.campaigns, session.tiers, session.customers, session.sales)
  }

  function CacheOf(session: Session): Cache
    reads session
  {
    Cache(session.progress, session.progressLog)
  }

  /** What calculating a customer's progress should produce, whatever the cache says. */
  ghost function Fresh(books: Books, c: Id, k: Id): Result<Snapshot, Error> {
    if !LiveCampaign(books.campaigns, c) then Err(CampaignNotFound)
    else if !LiveCustomer(books.customers, books.company, k) then Err(CustomerNotFound)
    else Recompute(books.campaigns[c], LadderOf(books.tiers, c),
                   RowsOf(Window(books.sales, books.campaigns[c], k)))
  }

  /** Amounts fit their columns and active amounts differ, so a ladder is well defined.
      The catalogue keeps both. */
  ghost predicate LaddersReady(tiers: map<Id, GiftTier>) {
    AmountsFit(tiers) && forall c :: DistinctActiveAmounts(tiers, c)
  }

  /** The order in which the database returns the records does not matter. */
  lemma RecomputeOrderIndependent(campaign: Campaign, ladder: seq<Rung>, a: seq<SaleRecord>, b: seq<SaleRecord>)
    requires IsLadder(ladder) && multiset(a) == multiset(b)
    ensures Recompute(campaign, ladder, a) == Recompute(campaign, ladder, b)
  {
    if MergedRules(campaign.rules).Ok? {
      TotalOrderIndependent(a, b, campaign.currency, MergedRules(campaign.rules).value);
    }
  }

  /** For a fixed ladder, one more sale never lowers a customer's standing, the pair of
      rungs reached and basis points, and one more return or refund never raises it. */
  lemma StandingMonotone(campaign: Campaign, ladder: seq<Rung>, before: seq<SaleRecord>, after: seq<SaleRecord>,
                         r: SaleRecord)
    requires IsLadder(ladder) && multiset(after) == multiset(before) + multiset{r}
    requires Recompute(campaign, ladder, before).Ok? && Recompute(campaign, ladder, after).Ok?
    requires AdmittedSale(r.document) || IsReturn(r.document)
    ensures var x, y := Recompute(campaign, ladder, before).value, Recompute(campaign, ladder, after).value;
            var low, high := if IsReturn(r.document) then y else x, if IsReturn(r.document) then x else y;
            && low.total <= high.total
            && Reached(low.total, ladder) <= Reached(high.total, ladder)
            && (Reached(low.total, ladder) == Reached(high.total, ladder) ==>
                  low.currentTier == high.currentTier && low.basisPoints <= high.basisPoints)
  {
    var rules := MergedRules(campaign.rules).value;
    TotalMonotone(before, after, r, campaign.currency, rules);
    var x := TotalOf(before, campaign.currency, rules).value.0;
    var y := TotalOf(after, campaign.currency, rules).value.0;
    if IsReturn(r.document) {
      PlacementMonotone(y, x, ladder);
    } else {
      PlacementMonotone(x, y, ladder);
    }
  }

  /** The snapshot column by column: the total and counters of the fold, the campaign's
      currency, the last tier reached, the first not reached, what is missing to it. */
  lemma SnapshotOnFields(campaign: Campaign, ladder: seq<Rung>, records: seq<SaleRecord>)
    requires IsLadder(ladder) && Recompute(campaign, ladder, records).Ok?
    ensures var row, rules := Recompute(campaign, ladder, records).value, MergedRules(campaign.rules).value;
      && TotalOf(records, campaign.currency, rules).Ok?
      && row.total == TotalOf(records, campaign.currency, rules).value.0
      && row.stats == TotalOf(records, campaign.currency, rules).value.1.(noTiers := ladder == [])
      && row.currency == campaign.currency
      && (row.currentTier.None? <==> forall t :: t in ladder ==> t.required > row.total)
      && (row.currentTier.Some? ==>
            exists r :: r in ladder && row.currentTier == Some(r.id) && r.required <= row.total
                        && forall t :: t in ladder && t.required <= row.total ==> t.required <= r.required)
      && (row.nextTier.None? <==> forall t :: t in ladder ==> t.required <= row.total)
      && (row.nextTier.Some? ==>
            exists r :: r in ladder && row.nextTier == Some(r.id) && row.total + row.amountLeft == r.required
                        && row.amountLeft > 0 && row.basisPoints <= 10000
                        && forall t :: t in ladder && t.required > row.total ==> t.required >= r.required)
      && (row.nextTier.None? ==> row.amountLeft == 0 && row.basisPoints == if ladder == [] then 0 else 10000)
  {
    PlacementMeaning(TotalOf(records, campaign.currency, MergedRules(campaign.rules).value).value.0, ladder);
  }

  /** A recomputation is for a live campaign and a live customer of the company, over the
      campaign's ladder and the customer's window. */
  lemma FreshOnFields(books: Books, c: Id, k: Id)
    ensures Fresh(books, c, k).Ok? ==>
      && c in books.campaigns && !books.campaigns[c].deleted
      && k in books.customers && books.customers[k].company == books.company && !books.customers[k].deleted
      && Fresh(books, c, k) == Recompute(books.campaigns[c], LadderOf(books.tiers, c),
                                         RowsOf(Window(books.sales, books.campaigns[c], k)))
    ensures c !in books.campaigns || books.campaigns[c].deleted ==> Fresh(books, c, k) == Err(CampaignNotFound)
    ensures c in books.campaigns && !books.campaigns[c].deleted
            && (k !in books.customers || books.customers[k].company != books.company || books.customers[k].deleted)
        ==> Fresh(books, c, k) == Err(CustomerNotFound)
  {
  }

  // ----- the cache and its event stream -----

  datatype Cache = Cache(snapshots: map<(Id, Id), Snapshot>, log: seq<ProgressEvent>)

  function BriefOf(s: Snapshot): Brief {
    Brief(s.total, s.currentTier, s.nextTier, s.amountLeft, s.basisPoints)
  }

  function CurrentTier(cache: Cache, c: Id, k: Id): Option<Id> {
    if (c, k) in cache.snapshots then cache.snapshots[(c, k)].currentTier else None
  }

  /** total, current tier and next tier: what a recalculation event reports a change of */
  function Triple(b: Brief): (nat, Option<Id>, Option<Id>) { (b.total, b.currentTier, b.nextTier) }

  function StoredBrief(cache: Cache, c: Id, k: Id): Option<Brief> {
    if (c, k) in cache.snapshots then Some(BriefOf(cache.snapshots[(c, k)])) else None
  }

  function StoredTriple(cache: Cache, c: Id, k: Id): Option<(nat, Option<Id>, Option<Id>)> {
    match StoredBrief(cache, c, k)
    case None => None
    case Some(b) => Some(Triple(b))
  }

  /** The events one upsert emits. */
  function EventsFor(cache: Cache, c: Id, k: Id, row: Snapshot): seq<ProgressEvent> {
    var before, after := StoredBrief(cache, c, k), BriefOf(row);
    var previous, current := CurrentTier(cache, c, k), row.currentTier;
    (if StoredTriple(cache, c, k) != Some(Triple(after)) then [Recalculated(c, k, before, after)] else [])
    + (if previous == None && current.Some? then [TierReached(c, k, current.value, row.total)]
       else if previous != current then [TierChanged(c, k, previous, current, row.total)]
       else [])
  }

  function Upsert(cache: Cache, c: Id, k: Id, row: Snapshot): Cache {
    Cache(cache.snapshots[(c, k) := row], cache.log + EventsFor(cache, c, k, row))
  }

  /** The events on the columns of the rows: a recalculation with the old and the new total,
      tiers, amount left and percentage if total or a tier changed, and a tier event if the
      current tier did, a first tier being reached and any other changed. */
  lemma EventsOnFields(cache: Cache, c: Id, k: Id, row: Snapshot)
    ensures var known := (c, k) in cache.snapshots;
      var was := if known then cache.snapshots[(c, k)] else row;
      var told := !known || was.total != row.total || was.currentTier != row.currentTier
                  || was.nextTier != row.nextTier;
      var held := if known then was.currentTier else None;
      var before := if known then Some(Brief(was.total, was.currentTier, was.nextTier, was.amountLeft, was.basisPoints))
                    else None;
      Upsert(cache, c, k, row) == Cache(
        cache.snapshots[(c, k) := row],
        cache.log
        + ((if told then [Recalculated(c, k, before, Brief(row.total, row.currentTier, row.nextTier, row.amountLeft,
                                                           row.basisPoints))]
            else [])
           + (if held == row.currentTier then []
              else if held == None then [TierReached(c, k, row.currentTier.value, row.total)]
              else [TierChanged(c, k, held, row.currentTier, row.total)])))
  {
  }

  method UpsertProgress(session: Session, c: Id, k: Id, total: nat, currency: string, tiers: TierResult, stats: Stats)
    modifies session`progress, session`progressLog
    ensures CacheOf(session) == Upsert(old(CacheOf(session)), c, k, SnapshotOf(total, currency, stats, tiers))
  {
    var before: Option<Brief>, previous: Option<Id> := None, None;
    if (c, k) in session.progress {
      previous := session.progress[(c, k)].currentTier;
      before := Some(BriefOf(session.progress[(c, k)]));
    }
    var row := Snapshot(total, currency, IdOf(tiers.current), IdOf(tiers.next),
                        tiers.amountLeft, tiers.basisPoints, stats.(noTiers := tiers.noTiers));
    session.progress := session.progress[(c, k) := row];
    var after := BriefOf(row);
    var shouldEmit := before.None?
      || before.value.total != after.total
      || before.value.currentTier != after.currentTier
      || before.value.nextTier != after.nextTier;
    if shouldEmit {
      session.progressLog := session.progressLog + [Recalculated(c, k, before, after)];
    }
    var current := row.currentTier;
    if previous == None && current != None {
      session.progressLog := session.progressLog + [TierReached(c, k, current.value, total)];
    } else if previous != current {
      session.progressLog := session.progressLog + [TierChanged(c, k, previous, current, total)];
    }
    assert session.progressLog == old(session.progressLog)
        + EventsFor(old(CacheOf(session)), c, k, row);
  }

  /** The cache entry a calculation leaves is the fresh recomputation, or nothing changed. */
  method CalculateCustomerProgress(session: Session, c: Id, k: Id) returns (r: Result<Snapshot, Error>)
    requires LaddersReady(session.tiers)
    modifies session`progress, session`progressLog
    ensures r == Fresh(old(BooksOf(session)), c, k)
    ensures CacheOf(session) == if r.Ok? then Upsert(old(CacheOf(session)), c, k, r.value) else old(CacheOf(session))
  {
    if c !in session.campaigns || session.campaigns[c].deleted {
      return Err(CampaignNotFound);
    }
    var campaign := session.campaigns[c];
    if k !in session.customers || session.customers[k].company != session.company || session.customers[k].deleted {
      return Err(CustomerNotFound);
    }
    var rules := MergedRules(campaign.rules);
    if rules.Err? {
      return Err(rules.error);
    }
    var tiers := ActiveTiers(session, c);
    LadderUnique(session.tiers, c, tiers, LadderOf(session.tiers, c));
    var records := SaleRecordsForCustomer(session, campaign, k);
    var total := CalculateTotal(records, campaign.currency, rules.value);
    RecomputeOrderIndependent(campaign, tiers, records, RowsOf(Window(session.sales, campaign, k)));
    if total.Err? {
      return Err(total.error);
    }
    var placement := CalculateTiers(total.value.0, tiers);
    UpsertProgress(session, c, k, total.value.0, campaign.currency, placement, total.value.1);
    return Ok(SnapshotOf(total.value.0, campaign.currency, total.value.1, placement));
  }

  /** rows holds the fresh row of each listed customer whose calculation succeeds. */
  ghost predicate AreFresh(books: Books, c: Id, customers: seq<Id>, rows: map<Id, Snapshot>) {
    forall k {:trigger Fresh(books, c, k)} :: k in customers ==>
      (k in rows <==> Fresh(books, c, k).Ok?) && (k in rows ==> Fresh(books, c, k) == Ok(rows[k]))
  }

  /** A list of customers recalculated one after the other. */
  function WriteAll(cache: Cache, c: Id, customers: seq<Id>, rows: map<Id, Snapshot>): Cache
    requires forall k :: k in customers ==> k in rows
  {
    if customers == [] then cache
    else
      var k := customers[|customers| - 1];
      Upsert(WriteAll(cache, c, customers[..|customers| - 1], rows), c, k, rows[k])
  }

  /** The first n customers have been written, and nothing else has happened. */
  ghost predicate Written(before: Cache, now: Cache, c: Id, customers: seq<Id>, rows: map<Id, Snapshot>, n: nat) {
    && n <= |customers| && (forall k :: k in customers[..n] ==> k in rows)
    && now == WriteAll(before, c, customers[..n], rows)
  }

  lemma WriteNext(before: Cache, now: Cache, c: Id, customers: seq<Id>, rows: map<Id, Snapshot>, n: nat)
    requires n < |customers| && Written(before, now, c, customers, rows, n) && customers[n] in rows
    ensures Written(before, Upsert(now, c, customers[n], rows[customers[n]]), c, customers, rows, n + 1)
  {
    assert customers[..n + 1] == customers[..n] + [customers[n]];
  }

  /** The n-th customer is the first that cannot be written. */
  ghost predicate StoppedAt(before: Cache, now: Cache, c: Id, customers: seq<Id>, rows: map<Id, Snapshot>, n: nat) {
    n < |customers| && Written(before, now, c, customers, rows, n) && customers[n] !in rows
  }

  /** Recalculates in chunks and stops at the first failure. */
  method RecalculateAffectedCustomers(session: Session, c: Id, customers: seq<Id>, chunkSize: nat,
                                      ghost rows: map<Id, Snapshot>)
    returns (r: Result<nat, Error>)
    requires LaddersReady(session.tiers) && chunkSize > 0
    requires AreFresh(BooksOf(session), c, customers, rows)
    modifies session`progress, session`progressLog
    ensures if forall k :: k in customers ==> k in rows
      then r == Ok(|customers|) && CacheOf(session) == WriteAll(old(CacheOf(session)), c, customers, rows)
      else r.Err? && exists n :: StoppedAt(old(CacheOf(session)), CacheOf(session), c, customers, rows, n)
  {
    ghost var books, before := BooksOf(session), CacheOf(session);
    var recalculated := 0;
    while recalculated < |customers|
      invariant Written(before, CacheOf(session), c, customers, rows, recalculated)
      invariant BooksOf(session) == books
    {
      var end := Min(recalculated + chunkSize, |customers|);
      r := RecalculateChunk(session, c, customers, recalculated, end, before, rows);
      if r.Err? {
        return;
      }
      recalculated := end;
    }
    assert customers[..recalculated] == customers;
    return Ok(recalculated);
  }

  method RecalculateChunk(session: Session, c: Id, customers: seq<Id>, offset: nat, end: nat, ghost before: Cache,
                          ghost rows: map<Id, Snapshot>)
    returns (r: Result<nat, Error>)
    requires LaddersReady(session.tiers) && offset <= end <= |customers|
    requires AreFresh(BooksOf(session), c, customers, rows)
    requires Written(before, CacheOf(session), c, customers, rows, offset)
    modifies session`progress, session`progressLog
    ensures r.Ok? ==> Written(before, CacheOf(session), c, customers, rows, end)
    ensures r.Err? ==> exists n :: StoppedAt(before, CacheOf(session), c, customers, rows, n)
  {
    ghost var books := BooksOf(session);
    for i := offset to end
      invariant Written(before, CacheOf(session), c, customers, rows, i)
      invariant BooksOf(session) == books
    {
      ghost var now := CacheOf(session);
      assert customers[i] in customers;
      var outcome := RecalculateOne(session, c, customers[i], customers, rows);
      if outcome.Err? {
        assert StoppedAt(before, CacheOf(session), c, customers, rows, i);
        return Err(outcome.error);
      }
      WriteNext(before, now, c, customers, rows, i);
    }
    return Ok(end);
  }

  method RecalculateOne(session: Session, c: Id, k: Id, ghost customers: seq<Id>, ghost rows: map<Id, Snapshot>)
    returns (r: Result<(), Error>)
    requires LaddersReady(session.tiers)
    requires AreFresh(BooksOf(session), c, customers, rows) && k in customers
    modifies session`progress, session`progressLog
    ensures r.Ok? <==> k in rows
    ensures CacheOf(session) == if r.Ok? then Upsert(old(CacheOf(session)), c, k, rows[k]) else old(CacheOf(session))
  {
    var outcome := CalculateCustomerProgress(session, c, k);
    r := if outcome.Ok? then Ok(()) else Err(outcome.error);
  }

  ghost predicate SameEntry(before: Cache, after: Cache, c: Id, k: Id) {
    && ((c, k) in before.snapshots <==> (c, k) in after.snapshots)
    && ((c, k) in before.snapshots ==> before.snapshots[(c, k)] == after.snapshots[(c, k)])
  }

  /** Afterwards every customer listed has the row computed for it, in whatever order and
      however often it was listed, and no other entry moved. */
  lemma {:induction false} WriteAllMeaning(cache: Cache, c: Id, customers: seq<Id>, rows: map<Id, Snapshot>)
    requires forall k :: k in customers ==> k in rows
    ensures var after := WriteAll(cache, c, customers, rows);
            && (forall k :: k in customers ==> (c, k) in after.snapshots && after.snapshots[(c, k)] == rows[k])
            && (forall d, k :: d != c || k !in customers ==> SameEntry(cache, after, d, k))
  {
    if customers == [] {
    } else {
      var front, last := customers[..|customers| - 1], customers[|customers| - 1];
      assert customers == front + [last];
      WriteAllMeaning(cache, c, front, rows);
      forall d, k | d != c || k !in customers
        ensures SameEntry(cache, WriteAll(cache, c, customers, rows), d, k)
      {
        assert SameEntry(cache, WriteAll(cache, c, front, rows), d, k);
      }
    }
  }

  lemma {:induction false} WriteAllConsistent(cache: Cache, c: Id, customers: seq<Id>, rows: map<Id, Snapshot>)
    requires forall k :: k in customers ==> k in rows
    requires Consistent(cache)
    ensures Consistent(WriteAll(cache, c, customers, rows))
  {
    if customers == [] {
    } else {
      var front, last := customers[..|customers| - 1], customers[|customers| - 1];
      WriteAllConsistent(cache, c, front, rows);
      UpsertConsistent(WriteAll(cache, c, front, rows), c, last, rows[last]);
    }
  }

  // ----- the event stream replays to the stored state -----

  predicate IsTierEvent(e: ProgressEvent, c: Id, k: Id) {
    !e.Recalculated? && e.campaign == c && e.customer == k
  }

  function PreviousTier(e: ProgressEvent): Option<Id>
    requires !e.Recalculated?
  {
    if e.TierReached? then None else e.previous
  }

  function NewTier(e: ProgressEvent): Option<Id>
    requires !e.Recalculated?
  {
    if e.TierReached? then Some(e.tier) else e.current
  }

  /** The tier a reader of the events alone believes a customer holds. */
  function ReplayTier(log: seq<ProgressEvent>, c: Id, k: Id): Option<Id> {
    if log == [] then None
    else if IsTierEvent(log[|log| - 1], c, k) then NewTier(log[|log| - 1])
    else ReplayTier(log[..|log| - 1], c, k)
  }

  /** The total, current and next tier such a reader believes in. */
  function ReplayTriple(log: seq<ProgressEvent>, c: Id, k: Id): Option<(nat, Option<Id>, Option<Id>)> {
    if log == [] then None
    else
      var e := log[|log| - 1];
      if e.Recalculated? && e.campaign == c && e.customer == k then Some(Triple(e.after))
      else ReplayTriple(log[..|log| - 1], c, k)
  }

  /** Every event starts where the preceding one of its kind ended, and moves. */
  ghost predicate Chained(log: seq<ProgressEvent>) {
    forall i :: 0 <= i < |log| ==> LinkedAt(log, i)
  }

  ghost predicate LinkedAt(log: seq<ProgressEvent>, i: nat)
    requires i < |log|
  {
    var e := log[i];
    if e.Recalculated? then
      var before := match e.before { case None => None case Some(b) => Some(Triple(b)) };
      before == ReplayTriple(log[..i], e.campaign, e.customer) && before != Some(Triple(e.after))
    else
      PreviousTier(e) == ReplayTier(log[..i], e.campaign, e.customer) && PreviousTier(e) != NewTier(e)
  }

  ghost predicate Consistent(cache: Cache) {
    && Chained(cache.log)
    && (forall c, k :: ReplayTier(cache.log, c, k) == CurrentTier(cache, c, k))
    && (forall c, k :: ReplayTriple(cache.log, c, k) == StoredTriple(cache, c, k))
  }

  lemma AppendEvent(log: seq<ProgressEvent>, e: ProgressEvent)
    requires Chained(log) && LinkedAt(log + [e], |log|)
    ensures Chained(log + [e])
    ensures forall c, k :: ReplayTier(log + [e], c, k)
                        == if IsTierEvent(e, c, k) then NewTier(e) else ReplayTier(log, c, k)
    ensures forall c, k :: ReplayTriple(log + [e], c, k)
                        == if e.Recalculated? && e.campaign == c && e.customer == k then Some(Triple(e.after))
                           else ReplayTriple(log, c, k)
  {
    forall i | 0 <= i < |log| ensures LinkedAt(log + [e], i) {
      assert LinkedAt(log, i);
      assert (log + [e])[..i] == log[..i];
    }
    assert (log + [e])[..|log|] == log;
  }

  /** The step: whatever is written, the stream stays a chain that ends in the cache. */
  lemma UpsertConsistent(cache: Cache, c: Id, k: Id, row: Snapshot)
    requires Consistent(cache)
    ensures Consistent(Upsert(cache, c, k, row))
  {
    var log := AppendRecalculated(cache, c, k, row);
    var next := Upsert(cache, c, k, row);
    var previous, current := CurrentTier(cache, c, k), row.currentTier;
    assert ReplayTier(log, c, k) == previous;
    if previous != current {
      var e := if previous == None then TierReached(c, k, current.value, row.total)
               else TierChanged(c, k, previous, current, row.total);
      assert (log + [e])[..|log|] == log;
      AppendEvent(log, e);
      assert next.log == log + [e];
    } else {
      assert next.log == log;
    }
  }

  lemma AppendRecalculated(cache: Cache, c: Id, k: Id, row: Snapshot) returns (log: seq<ProgressEvent>)
    requires Consistent(cache)
    ensures log == cache.log + if StoredTriple(cache, c, k) != Some(Triple(BriefOf(row)))
                               then [Recalculated(c, k, StoredBrief(cache, c, k), BriefOf(row))] else []
    ensures Chained(log)
    ensures forall d, j :: ReplayTier(log, d, j) == CurrentTier(cache, d, j)
    ensures forall d, j :: ReplayTriple(log, d, j) == StoredTriple(Upsert(cache, c, k, row), d, j)
  {
    log := cache.log;
    if StoredTriple(cache, c, k) != Some(Triple(BriefOf(row))) {
      var e := Recalculated(c, k, StoredBrief(cache, c, k), BriefOf(row));
      assert (log + [e])[..|log|] == log;
      assert ReplayTriple(log, c, k) == StoredTriple(cache, c, k);
      AppendEvent(log, e);
      log := log + [e];
    }
  }

  /** A run: any recalculations, of any customers, against any state of the ledger. */
  function Run(writes: seq<(Id, Id, Snapshot)>): Cache {
    if writes == [] then Cache(map[], [])
    else
      var w := writes[|writes| - 1];
      Upsert(Run(writes[..|writes| - 1]), w.0, w.1, w.2)
  }

  lemma {:induction false} RunConsistent(writes: seq<(Id, Id, Snapshot)>)
    ensures Consistent(Run(writes))
  {
    if writes == [] {
    } else {
      var w := writes[|writes| - 1];
      RunConsistent(writes[..|writes| - 1]);
      UpsertConsistent(Run(writes[..|writes| - 1]), w.0, w.1, w.2);
    }
  }

  /** Silence means exactly that total, current tier and next tier stayed the same. */
  lemma SilentIff(cache: Cache, c: Id, k: Id, row: Snapshot)
    ensures Upsert(cache, c, k, row).log == cache.log
       <==> StoredTriple(cache, c, k) == Some(Triple(BriefOf(row)))
  {
  }

  /** So the events do not determine the whole cache: when an edit moves the next tier's
      amount, the amount left changes without an event. */
  lemma AmountLeftChangesSilently()
    ensures var stats := Stats(0, 0, 0, 0, 0, 0, false, Gross, AllValidDocuments, Exclude);
      var was := SnapshotOf(50, "UZS", stats, Place(50, [Rung(1, 100)]));
      var now := SnapshotOf(50, "UZS", stats, Place(50, [Rung(1, 200)]));
      var cache := Run([(7, 8, was)]);
      && was.amountLeft != now.amountLeft
      && Upsert(cache, 7, 8, now).log == cache.log
      && Upsert(cache, 7, 8, now).snapshots != cache.snapshots
  {
  }
}
