// Whether the cached progress agrees with the ledger after a batch is committed.
module Coherence {
  import opened Basics
  import opened Models
  import opened Database
  import opened Totals
  import opened Progress
  import opened Freshness
  import opened Ledger
  import opened Batches

  function ActiveCampaigns(campaigns: map<Id, Campaign>): set<Id> {
    set c | c in campaigns && campaigns[c].status == Active && !campaigns[c].deleted
  }

  /** Every listed customer can be recalculated in every listed campaign. */
  ghost predicate FreshIn(books: Books, campaigns: set<Id>, customers: set<Id>) {
    forall c, k {:trigger Fresh(books, c, k)} :: c in campaigns && k in customers ==> Fresh(books, c, k).Ok?
  }

  ghost predicate AllFresh(books: Books, customers: set<Id>) {
    FreshIn(books, ActiveCampaigns(books.campaigns), customers)
  }

  /** The listed pairs are up to date and no other entry has moved. */
  ghost predicate Refreshed(books: Books, before: Cache, after: Cache, campaigns: set<Id>, customers: set<Id>) {
    && (forall c, k :: c in campaigns && k in customers ==> UpToDate(books, after, c, k))
    && (forall c, k :: c !in campaigns || k !in customers ==> SameEntry(before, after, c, k))
  }

  /** Those campaigns have been recalculated, and nothing else has happened. */
  ghost predicate SoFar(books: Books, before: Cache, now: Cache, campaigns: set<Id>, customers: set<Id>) {
    && Refreshed(books, before, now, campaigns, customers)
    && FreshIn(books, campaigns, customers)
    && (Consistent(before) ==> Consistent(now))
  }

  ghost function FreshRows(books: Books, c: Id, customers: seq<Id>): (rows: map<Id, Snapshot>)
    ensures AreFresh(books, c, customers, rows)
  {
    map k {:trigger Fresh(books, c, k)} | k in customers && Fresh(books, c, k).Ok? :: Fresh(books, c, k).value
  }

  lemma NothingRefreshed(books: Books, cache: Cache, customers: set<Id>)
    ensures SoFar(books, cache, cache, {}, customers)
  {
  }

  lemma NothingToRefresh(books: Books, cache: Cache, campaigns: set<Id>)
    ensures SoFar(books, cache, cache, campaigns, {})
  {
  }

  /** One more campaign recalculated. */
  lemma RefreshOne(books: Books, before: Cache, mid: Cache, campaigns: set<Id>, customers: set<Id>,
                   c: Id, list: seq<Id>, rows: map<Id, Snapshot>)
    requires SoFar(books, before, mid, campaigns, customers) && c !in campaigns
    requires (forall k :: k in list <==> k in customers) && AreFresh(books, c, list, rows)
    requires forall k :: k in list ==> k in rows
    ensures SoFar(books, before, WriteAll(mid, c, list, rows), campaigns + {c}, customers)
  {
    var after := WriteAll(mid, c, list, rows);
    WriteAllMeaning(mid, c, list, rows);
    if Consistent(mid) {
      WriteAllConsistent(mid, c, list, rows);
    }
    forall d, k | d in campaigns + {c} && k in customers ensures UpToDate(books, after, d, k) {
      if d != c {
        assert UpToDate(books, mid, d, k);
        assert SameEntry(mid, after, d, k);
      }
    }
    forall d, k | d !in campaigns + {c} || k !in customers ensures SameEntry(before, after, d, k) {
      assert SameEntry(before, mid, d, k);
      assert SameEntry(mid, after, d, k);
    }
  }

  /** The tables with the customers and sales of a ledger. */
  function BooksWith(books: Books, ledger: Ledger): Books {
    books.(customers := ledger.customers, sales := ledger.sales)
  }

  /** Once the rows of a batch are in, every affected customer can be recalculated. */
  ghost predicate CanRecalculate(books: Books, s: State, id: Id)
    requires id in s.batches
  {
    AllFresh(BooksWith(books, Committed(s, id).0), Affected(Committed(s, id).1))
  }

  /** What committing some rows and refreshing the cache does, or fails to do. */
  ghost predicate RowsEffect(books: Books, l: Ledger, cache: Cache, id: Id, rows: seq<ImportRow>,
                             outcomes: seq<RowOutcome>,
                             ok: bool, after: Ledger, cacheAfter: Cache) {
    var (m, said) := CommitRows(l, books.company, id, ValidContents(rows));
    && outcomes == said
    && ok == AllFresh(BooksWith(books, m), Affected(said))
    && after == (if ok then m else l)
    && (if ok then Refreshed(BooksWith(books, m), cache, cacheAfter, ActiveCampaigns(books.campaigns), Affected(said))
        else cacheAfter == cache)
    && (Consistent(cache) ==> Consistent(cacheAfter))
  }

  /** What committing a batch does: if it may be committed and every affected customer can
      be recalculated, the batch is applied and the cache refreshed; otherwise nothing. */
  ghost predicate CommitEffect(books: Books, s: State, cache: Cache, id: Id, ok: bool, after: State,
                               cacheAfter: Cache) {
    && ok == (id in s.batches && Committable(s.batches[id].status) && CanRecalculate(books, s, id))
    && after == (if ok then Applied(s, id) else s)
    && (if ok then Refreshed(BooksWith(books, after.ledger), cache, cacheAfter, ActiveCampaigns(books.campaigns),
                             Affected(Committed(s, id).1))
        else cacheAfter == cache)
    && (Consistent(cache) ==> Consistent(cacheAfter))
  }

  lemma NotCommitted(books: Books, s: State, cache: Cache, id: Id)
    requires id !in s.batches || !Committable(s.batches[id].status)
    ensures CommitEffect(books, s, cache, id, false, s, cache)
  {
  }

  lemma EffectOfRows(books: Books, s: State, cache: Cache, id: Id, outcomes: seq<RowOutcome>, ok: bool, after: Ledger,
                     cacheAfter: Cache)
    requires books.company == s.company && id in s.batches && Committable(s.batches[id].status)
    requires RowsEffect(books, s.ledger, cache, id, s.batches[id].rows, outcomes, ok, after, cacheAfter)
    ensures CommitEffect(books, s, cache, id, ok, if ok then Applied(s, id) else s, cacheAfter)
    ensures ok ==>
      Applied(s, id) == State(s.company, after, s.batches[id := BatchAfter(s.batches[id], outcomes)], s.log + [id])
    ensures !ok ==> after == s.ledger
  {
  }

  /** So a call of the commit service is a step of the runs the batch invariants are about. */
  lemma CommitIsAStep(books: Books, s: State, cache: Cache, id: Id, ok: bool, after: State, cacheAfter: Cache)
    requires CommitEffect(books, s, cache, id, ok, after, cacheAfter)
    ensures Outcome(s, Commit(id, ok), ok, after)
  {
  }

  // ----- when a recalculation succeeds -----

  lemma {:induction false} RowsAreValues(m: map<SourceKey, SaleRecord>, r: SaleRecord)
    ensures r in RowsOf(m) <==> exists key :: key in m && m[key] == r
    decreases m.Keys
  {
    if m == map[] {
    } else {
      var j := AnyKey(m);
      RowsAreValues(m - {j}, r);
      assert r in RowsOf(m) <==> r in RowsOf(m - {j}) || r == m[j];
      if key :| key in m && m[key] == r {
        if key != j {
          assert key in m - {j} && (m - {j})[key] == r;
        }
      }
    }
  }

  /** Every record in the window is in the campaign's currency. */
  predicate SameCurrency(books: Books, c: Id, k: Id)
    requires c in books.campaigns
  {
    var window := Window(books.sales, books.campaigns[c], k);
    forall key :: key in window ==> window[key].document.currency == books.campaigns[c].currency
  }

  predicate Recalculable(books: Books, c: Id, k: Id) {
    && c in books.campaigns && !books.campaigns[c].deleted
    && k in books.customers && books.customers[k].company == books.company && !books.customers[k].deleted
    && var rules := MergedRules(books.campaigns[c].rules);
       rules.Ok? && (rules.value.mismatch == Fail ==> SameCurrency(books, c, k))
  }

  /** A calculation fails only for a missing or deleted campaign or customer, an unknown
      rule, or a record in another currency under the policy that forbids one. */
  lemma FreshOkIff(books: Books, c: Id, k: Id)
    ensures Fresh(books, c, k).Ok? <==> Recalculable(books, c, k)
  {
    if LiveCampaign(books.campaigns, c) && LiveCustomer(books.customers, books.company, k)
       && MergedRules(books.campaigns[c].rules).Ok? {
      MismatchIff(Window(books.sales, books.campaigns[c], k), books.campaigns[c].currency);
    }
  }

  lemma MismatchIff(window: map<SourceKey, SaleRecord>, currency: string)
    ensures AnyMismatch(RowsOf(window), currency)
       <==> exists key :: key in window && window[key].document.currency != currency
  {
    if AnyMismatch(RowsOf(window), currency) {
      var i :| 0 <= i < |RowsOf(window)| && RowsOf(window)[i].document.currency != currency;
      RowsAreValues(window, RowsOf(window)[i]);
    }
    if key :| key in window && window[key].document.currency != currency {
      RowsAreValues(window, window[key]);
      var i :| 0 <= i < |RowsOf(window)| && RowsOf(window)[i] == window[key];
      assert RowsOf(window)[i].document.currency != currency;
    }
  }

  /** When committing a batch succeeds: it is still open, and every affected customer is
      recalculable in every active campaign once the rows are in. */
  lemma CommitSucceedsIff(books: Books, s: State, cache: Cache, id: Id, ok: bool, after: State, cacheAfter: Cache)
    requires CommitEffect(books, s, cache, id, ok, after, cacheAfter)
    ensures ok <==>
      && id in s.batches && Committable(s.batches[id].status)
      && forall c, k :: c in ActiveCampaigns(books.campaigns) && k in Affected(Committed(s, id).1) ==>
           Recalculable(BooksWith(books, Committed(s, id).0), c, k)
  {
    if id in s.batches {
      var now := BooksWith(books, Committed(s, id).0);
      forall c, k ensures Fresh(now, c, k).Ok? <==> Recalculable(now, c, k) {
        FreshOkIff(now, c, k);
      }
    }
  }

  // ----- recalculating a whole campaign -----

  /** A campaign recalculation visits only customers with a record in the period, so it
      leaves every stored snapshot of the campaign up to date if and only if each customer
      without any record is live and already has the blank snapshot. */
  lemma CampaignRecalculationCompleteIff(books: Books, before: Cache, after: Cache, c: Id)
    requires c in books.campaigns
    requires Refreshed(books, before, after, {c}, WindowCustomers(books.sales, books.campaigns[c]))
    ensures (forall k :: (c, k) in after.snapshots ==> UpToDate(books, after, c, k))
       <==> (forall k :: (c, k) in before.snapshots && k !in WindowCustomers(books.sales, books.campaigns[c]) ==>
               StoredBlank(books, before, c, k))
  {
    var visited := WindowCustomers(books.sales, books.campaigns[c]);
    forall k: Id | k !in visited
      ensures (c, k) in after.snapshots <==> (c, k) in before.snapshots
      ensures UpToDate(books, after, c, k) <==> StoredBlank(books, before, c, k)
    {
      assert SameEntry(before, after, c, k);
      UpToDateWithoutRecordsIff(books, after, c, k);
    }
    forall k | k in visited ensures UpToDate(books, after, c, k) {
      assert c in {c} && k in visited;
    }
  }

  /** In particular a customer whose last record left the period keeps a positive total,
      and a deleted customer without records keeps whatever was stored. */
  lemma NoRecordsStaysStale(books: Books, before: Cache, after: Cache, c: Id, k: Id)
    requires c in books.campaigns && k !in WindowCustomers(books.sales, books.campaigns[c])
    requires Refreshed(books, before, after, {c}, WindowCustomers(books.sales, books.campaigns[c]))
    requires (c, k) in before.snapshots
    requires before.snapshots[(c, k)].total > 0 || !LiveCustomer(books.customers, books.company, k)
    ensures (c, k) in after.snapshots && after.snapshots[(c, k)] == before.snapshots[(c, k)]
    ensures !UpToDate(books, after, c, k)
  {
    assert SameEntry(before, after, c, k);
    UpToDateWithoutRecordsIff(books, after, c, k);
  }

  // ----- customers a batch does not affect -----

  function RecordsOf(sales: map<SourceKey, SaleRecord>, k: Id): map<SourceKey, SaleRecord> {
    map key | key in sales && sales[key].customer == k :: sales[key]
  }

  /** Row i rewrites a record that customer k owned when the commit started. */
  predicate TakesFrom(l: Ledger, company: Id, row: NormalizedRow, k: Id) {
    && !Foreign(l, company, row.customerExternalId)
    && SaleActionFor(l, row) == Updated
    && l.sales[Csv(row.key)].customer == k
  }

  predicate Loses(l: Ledger, company: Id, rows: seq<NormalizedRow>, k: Id) {
    exists i :: 0 <= i < |rows| && TakesFrom(l, company, rows[i], k)
  }

  /** A customer the commit does not mark as affected keeps exactly its records if and only
      if no row rewrites one of them, which would move it to another customer. */
  lemma RecordsKeptIff(l: Ledger, company: Id, batch: Id, rows: seq<NormalizedRow>, k: Id)
    requires Sound(l) && DistinctKeys(rows)
    requires k !in Affected(CommitRows(l, company, batch, rows).1)
    ensures RecordsOf(CommitRows(l, company, batch, rows).0.sales, k) == RecordsOf(l.sales, k)
       <==> !Loses(l, company, rows, k)
  {
    var (m, outcomes) := CommitRows(l, company, batch, rows);
    var was, now := RecordsOf(l.sales, k), RecordsOf(m.sales, k);
    if Loses(l, company, rows, k) {
      var i :| 0 <= i < |rows| && TakesFrom(l, company, rows[i], k);
      RowOfUnaffected(l, company, batch, rows, k, i);
      assert Csv(rows[i].key) in was && Csv(rows[i].key) !in now;
    } else {
      forall key ensures SameRecord(was, now, key) {
        if KeyIn(rows, key) {
          var i :| 0 <= i < |rows| && Csv(rows[i].key) == key;
          RowOfUnaffected(l, company, batch, rows, k, i);
          assert !TakesFrom(l, company, rows[i], k);
        } else {
          OtherKeysUntouched(l, company, batch, rows, key);
        }
      }
      SameRecords(was, now);
    }
  }

  predicate SameRecord(was: map<SourceKey, SaleRecord>, now: map<SourceKey, SaleRecord>, key: SourceKey) {
    (key in was <==> key in now) && (key in was ==> was[key] == now[key])
  }

  lemma SameRecords(was: map<SourceKey, SaleRecord>, now: map<SourceKey, SaleRecord>)
    requires forall key :: SameRecord(was, now, key)
    ensures was == now
  {
    forall key | key in was ensures key in now && was[key] == now[key] {
      assert SameRecord(was, now, key);
    }
    forall key | key in now ensures key in was {
      assert SameRecord(was, now, key);
    }
  }

  /** A row either leaves its record alone or gives it to an affected customer. */
  lemma RowOfUnaffected(l: Ledger, company: Id, batch: Id, rows: seq<NormalizedRow>, k: Id, i: nat)
    requires Sound(l) && DistinctKeys(rows) && i < |rows|
    requires k !in Affected(CommitRows(l, company, batch, rows).1)
    ensures var m, key := CommitRows(l, company, batch, rows).0, Csv(rows[i].key);
            if Foreign(l, company, rows[i].customerExternalId) || SaleActionFor(l, rows[i]) == Skipped
            then SameSale(l, m, key)
            else key in m.sales && m.sales[key].customer != k
  {
    EveryRowDone(l, company, batch, rows, i);
    var (m, outcomes) := CommitRows(l, company, batch, rows);
    assert outcomes[i] in outcomes;
  }

  /** Row i rewrites a record that counted in customer k's window of the campaign. */
  predicate TakesInPeriod(l: Ledger, company: Id, campaign: Campaign, row: NormalizedRow, k: Id) {
    TakesFrom(l, company, row, k) && InPeriod(l.sales[Csv(row.key)], campaign)
  }

  predicate LosesInPeriod(l: Ledger, company: Id, campaign: Campaign, rows: seq<NormalizedRow>, k: Id) {
    exists i :: 0 <= i < |rows| && TakesInPeriod(l, company, campaign, rows[i], k)
  }

  /** The window of an unaffected customer only shrinks, and it shrinks exactly when a row
      takes a record out of it. */
  lemma WindowShrinksIff(l: Ledger, company: Id, batch: Id, rows: seq<NormalizedRow>, campaign: Campaign, k: Id)
    requires Sound(l) && DistinctKeys(rows)
    requires k !in Affected(CommitRows(l, company, batch, rows).1)
    ensures var was := Window(l.sales, campaign, k);
            var now := Window(CommitRows(l, company, batch, rows).0.sales, campaign, k);
            PartOf(now, was) && (now == was <==> !LosesInPeriod(l, company, campaign, rows, k))
  {
    var m := CommitRows(l, company, batch, rows).0;
    var was, now := Window(l.sales, campaign, k), Window(m.sales, campaign, k);
    forall key ensures KeptOrTaken(l, company, campaign, rows, k, was, now, key) {
      KeyKeptOrTaken(l, company, batch, rows, campaign, k, key);
    }
    WindowKept(l, company, campaign, rows, k, was, now);
    if LosesInPeriod(l, company, campaign, rows, k) {
      var i :| 0 <= i < |rows| && TakesInPeriod(l, company, campaign, rows[i], k);
      RowOfUnaffected(l, company, batch, rows, k, i);
      assert Csv(rows[i].key) in was && Csv(rows[i].key) !in now;
    }
  }

  lemma KeyKeptOrTaken(l: Ledger, company: Id, batch: Id, rows: seq<NormalizedRow>, campaign: Campaign, k: Id,
                       key: SourceKey)
    requires Sound(l) && DistinctKeys(rows)
    requires k !in Affected(CommitRows(l, company, batch, rows).1)
    ensures KeptOrTaken(l, company, campaign, rows, k, Window(l.sales, campaign, k),
                        Window(CommitRows(l, company, batch, rows).0.sales, campaign, k), key)
  {
    if KeyIn(rows, key) {
      var i :| 0 <= i < |rows| && Csv(rows[i].key) == key;
      RowOfUnaffected(l, company, batch, rows, k, i);
      assert TakesInPeriod(l, company, campaign, rows[i], k) ==> LosesInPeriod(l, company, campaign, rows, k);
    } else {
      OtherKeysUntouched(l, company, batch, rows, key);
    }
  }

  ghost predicate KeptOrTaken(l: Ledger, company: Id, campaign: Campaign, rows: seq<NormalizedRow>, k: Id,
                              was: map<SourceKey, SaleRecord>, now: map<SourceKey, SaleRecord>, key: SourceKey) {
    && (key in now ==> key in was && now[key] == was[key])
    && (key in was && key !in now ==> LosesInPeriod(l, company, campaign, rows, k))
  }

  lemma WindowKept(l: Ledger, company: Id, campaign: Campaign, rows: seq<NormalizedRow>, k: Id,
                   was: map<SourceKey, SaleRecord>, now: map<SourceKey, SaleRecord>)
    requires forall key :: KeptOrTaken(l, company, campaign, rows, k, was, now, key)
    ensures PartOf(now, was)
    ensures !LosesInPeriod(l, company, campaign, rows, k) ==> now == was
  {
    forall key | key in now ensures key in was && now[key] == was[key] {
      assert KeptOrTaken(l, company, campaign, rows, k, was, now, key);
    }
    if !LosesInPeriod(l, company, campaign, rows, k) {
      forall key | key in was ensures key in now {
        assert KeptOrTaken(l, company, campaign, rows, k, was, now, key);
      }
    }
  }

  // ----- the window after a commit, told beforehand -----

  predicate Rewrites(l: Ledger, company: Id, row: NormalizedRow) {
    !Foreign(l, company, row.customerExternalId) && SaleActionFor(l, row) != Skipped
  }

  /** The row, if any, that will write a key. */
  function Writer(l: Ledger, company: Id, rows: seq<NormalizedRow>, key: SourceKey): Option<NormalizedRow> {
    if rows == [] then None
    else
      var last := rows[|rows| - 1];
      if Csv(last.key) == key && Rewrites(l, company, last) then Some(last)
      else Writer(l, company, rows[..|rows| - 1], key)
  }

  lemma {:induction false} WriterMeaning(l: Ledger, company: Id, rows: seq<NormalizedRow>, key: SourceKey)
    ensures var writer := Writer(l, company, rows, key);
      if writer.Some?
      then Csv(writer.value.key) == key && Rewrites(l, company, writer.value)
           && exists i :: 0 <= i < |rows| && rows[i] == writer.value
      else forall i :: 0 <= i < |rows| && Csv(rows[i].key) == key ==> !Rewrites(l, company, rows[i])
  {
    if rows == [] {
    } else {
      var n := |rows| - 1;
      WriterMeaning(l, company, rows[..n], key);
      assert forall i :: 0 <= i < n ==> rows[..n][i] == rows[i];
      assert rows[n] == rows[|rows| - 1];
    }
  }

  /** The record a key will have if it will be customer k's. */
  function RecordAfter(l: Ledger, company: Id, batch: Id, rows: seq<NormalizedRow>, k: Id, key: SourceKey)
    : Option<SaleRecord>
  {
    match Writer(l, company, rows, key)
    case None => if key in l.sales && l.sales[key].customer == k then Some(l.sales[key]) else None
    case Some(row) =>
      if Marks(l, company, row, k) then Some(RecordFrom(row, k, batch, key in l.sales && l.sales[key].deleted))
      else None
  }

  function RecordNow(sales: map<SourceKey, SaleRecord>, k: Id, key: SourceKey): Option<SaleRecord> {
    if key in sales && sales[key].customer == k then Some(sales[key]) else None
  }

  lemma RecordIsPredicted(l: Ledger, company: Id, batch: Id, rows: seq<NormalizedRow>, k: Id, key: SourceKey)
    requires Sound(l) && DistinctKeys(rows) && k < l.next
    ensures RecordNow(CommitRows(l, company, batch, rows).0.sales, k, key)
         == RecordAfter(l, company, batch, rows, k, key)
  {
    if KeyIn(rows, key) {
      var i :| 0 <= i < |rows| && Csv(rows[i].key) == key;
      KeyWriter(l, company, rows, i);
      OutcomeMarksIff(l, company, batch, rows, k, i);
      RecordOfRow(l, company, batch, rows, k, i);
    } else {
      WriterMeaning(l, company, rows, key);
      OtherKeysUntouched(l, company, batch, rows, key);
    }
  }

  lemma KeyWriter(l: Ledger, company: Id, rows: seq<NormalizedRow>, i: nat)
    requires DistinctKeys(rows) && i < |rows|
    ensures Writer(l, company, rows, Csv(rows[i].key)) == if Rewrites(l, company, rows[i]) then Some(rows[i]) else None
  {
    WriterMeaning(l, company, rows, Csv(rows[i].key));
  }

  lemma RecordOfRow(l: Ledger, company: Id, batch: Id, rows: seq<NormalizedRow>, k: Id, i: nat)
    requires Sound(l) && DistinctKeys(rows) && i < |rows|
    ensures var (m, outcomes) := CommitRows(l, company, batch, rows);
      var key, o := Csv(rows[i].key), outcomes[i];
      if Rewrites(l, company, rows[i])
      then o.Done? && o.sale != Skipped && key in m.sales
           && m.sales[key] == RecordFrom(rows[i], o.customer, batch, key in l.sales && l.sales[key].deleted)
      else SameSale(l, m, key)
  {
    EveryRowDone(l, company, batch, rows, i);
  }

  function RowKeys(rows: seq<NormalizedRow>): set<SourceKey> {
    set i | 0 <= i < |rows| :: Csv(rows[i].key)
  }

  /** Customer k's window of a campaign once the rows are in. */
  function WindowAfter(l: Ledger, company: Id, batch: Id, rows: seq<NormalizedRow>, campaign: Campaign, k: Id)
    : map<SourceKey, SaleRecord>
  {
    map key | key in l.sales.Keys + RowKeys(rows)
              && RecordAfter(l, company, batch, rows, k, key).Some?
              && InPeriod(RecordAfter(l, company, batch, rows, k, key).value, campaign)
            :: RecordAfter(l, company, batch, rows, k, key).value
  }

  lemma WindowIsPredicted(l: Ledger, company: Id, batch: Id, rows: seq<NormalizedRow>, campaign: Campaign, k: Id)
    requires Sound(l) && DistinctKeys(rows) && k < l.next
    ensures Window(CommitRows(l, company, batch, rows).0.sales, campaign, k)
         == WindowAfter(l, company, batch, rows, campaign, k)
  {
    var m := CommitRows(l, company, batch, rows).0;
    var now, told := Window(m.sales, campaign, k), WindowAfter(l, company, batch, rows, campaign, k);
    forall key ensures SameRecord(told, now, key) {
      RecordIsPredicted(l, company, batch, rows, k, key);
      OnlyTheseKeys(l, company, rows, batch, k, key);
    }
    SameRecords(told, now);
  }

  lemma OnlyTheseKeys(l: Ledger, company: Id, rows: seq<NormalizedRow>, batch: Id, k: Id, key: SourceKey)
    ensures RecordAfter(l, company, batch, rows, k, key).Some? ==> key in l.sales.Keys + RowKeys(rows)
  {
    WriterMeaning(l, company, rows, key);
  }

  // ----- cache coherence -----

  /** Read before the call: the commit will recalculate customer k in campaign c. */
  predicate WillRecalculate(books: Books, s: State, id: Id, c: Id, k: Id)
    requires id in s.batches
  {
    && c in books.campaigns && books.campaigns[c].status == Active && !books.campaigns[c].deleted
    && Marked(s.ledger, s.company, ValidContents(s.batches[id].rows), k)
  }

  /** Read before the call: k's window in c will weigh what it weighs now. */
  ghost predicate WillWeighSame(books: Books, s: State, id: Id, c: Id, k: Id)
    requires id in s.batches && c in books.campaigns
  {
    WeighsSame(books.campaigns[c], Window(s.ledger.sales, books.campaigns[c], k),
               WindowAfter(s.ledger, s.company, id, ValidContents(s.batches[id].rows), books.campaigns[c], k))
  }

  /** Cache coherence: after a batch is committed every affected customer, old or new, is
      up to date in every active campaign. A snapshot that was up to date before, of any
      customer in any campaign, still is if and only if the commit recalculates it or its
      window weighs the same. For a customer whom no row marks that means that no row
      takes an undeleted record of the campaign's period from it. */
  lemma CommitKeepsCoherenceIff(books: Books, s: State, cache: Cache, id: Id, after: State, cacheAfter: Cache, c: Id,
                                k: Id)
    requires Sound(s.ledger) && id in s.batches && BatchSound(s.batches[id])
    requires books == BooksWith(books, s.ledger) && books.company == s.company
    requires CommitEffect(books, s, cache, id, true, after, cacheAfter)
    requires c in books.campaigns
    ensures c in ActiveCampaigns(books.campaigns) && k in Affected(Committed(s, id).1) ==>
      UpToDate(BooksWith(books, after.ledger), cacheAfter, c, k)
    ensures UpToDate(books, cache, c, k) ==>
      (UpToDate(BooksWith(books, after.ledger), cacheAfter, c, k)
       <==> WillRecalculate(books, s, id, c, k) || WillWeighSame(books, s, id, c, k))
    ensures UpToDate(books, cache, c, k) && !Marked(s.ledger, s.company, ValidContents(s.batches[id].rows), k) ==>
      (UpToDate(BooksWith(books, after.ledger), cacheAfter, c, k)
       <==> !LosesInPeriod(s.ledger, s.company, books.campaigns[c], ValidContents(s.batches[id].rows), k))
  {
    if UpToDate(books, cache, c, k) {
      var rows := ValidContents(s.batches[id].rows);
      ValidContentsDistinct(s.batches[id].rows);
      AffectedIff(s.ledger, s.company, id, rows, k);
      if !WillRecalculate(books, s, id, c, k) {
        assert SameEntry(cache, cacheAfter, c, k);
        NotRecalculated(books, s, id, c, k);
      }
      if !Marked(s.ledger, s.company, rows, k) {
        NotMarked(books, s, id, c, k);
      }
    }
  }

  lemma NotRecalculated(books: Books, s: State, id: Id, c: Id, k: Id)
    requires Sound(s.ledger) && id in s.batches && DistinctKeys(ValidContents(s.batches[id].rows))
    requires books == BooksWith(books, s.ledger) && books.company == s.company && c in books.campaigns
    requires Fresh(books, c, k).Ok?
    ensures Fresh(BooksWith(books, Committed(s, id).0), c, k) == Fresh(books, c, k)
       <==> WillWeighSame(books, s, id, c, k)
  {
    var rows := ValidContents(s.batches[id].rows);
    CommitRowsGrow(s.ledger, s.company, id, rows);
    WindowIsPredicted(s.ledger, s.company, id, rows, books.campaigns[c], k);
    SameFreshIff(books, BooksWith(books, Committed(s, id).0), c, k);
  }

  lemma NotMarked(books: Books, s: State, id: Id, c: Id, k: Id)
    requires Sound(s.ledger) && id in s.batches && DistinctKeys(ValidContents(s.batches[id].rows))
    requires books == BooksWith(books, s.ledger) && books.company == s.company && c in books.campaigns
    requires Fresh(books, c, k).Ok? && k !in Affected(Committed(s, id).1)
    ensures Fresh(BooksWith(books, Committed(s, id).0), c, k) == Fresh(books, c, k)
       <==> !LosesInPeriod(s.ledger, s.company, books.campaigns[c], ValidContents(s.batches[id].rows), k)
  {
    var rows := ValidContents(s.batches[id].rows);
    CommitRowsGrow(s.ledger, s.company, id, rows);
    WindowShrinksIff(s.ledger, s.company, id, rows, books.campaigns[c], k);
    FewerOrMoreIff(books, BooksWith(books, Committed(s, id).0), c, k);
  }

  /** So a customer whom no row marks and from whom no row takes any record stays up to
      date everywhere. */
  lemma CommitKeepsCoherence(books: Books, s: State, cache: Cache, id: Id, after: State, cacheAfter: Cache, c: Id,
                             k: Id)
    requires Sound(s.ledger) && id in s.batches && BatchSound(s.batches[id])
    requires books == BooksWith(books, s.ledger) && books.company == s.company
    requires CommitEffect(books, s, cache, id, true, after, cacheAfter)
    requires c in books.campaigns
    ensures !Marked(s.ledger, s.company, ValidContents(s.batches[id].rows), k) && UpToDate(books, cache, c, k)
            && !Loses(s.ledger, s.company, ValidContents(s.batches[id].rows), k)
        ==> UpToDate(BooksWith(books, after.ledger), cacheAfter, c, k)
  {
    CommitKeepsCoherenceIff(books, s, cache, id, after, cacheAfter, c, k);
  }

  // ----- the proviso is needed -----

  const SALE_100 := Document(Sale, Posted, UnknownPayment, "UZS", 0, 100, None, None, None, None, None, 1, 5, 5,
                             None, None, None)
  const OPEN_CAMPAIGN := Campaign(0, 10, Active, "UZS", StoredRules(None, None, None, None, None, None), true, false)
  const KNOWN_RECORD := SaleRecord(1, SALE_100, None, false, None, None, false)
  const KNOWN_KEY := Csv(External("s"))

  function MovingRow(contact: Contact): NormalizedRow { NormalizedRow("b", contact, SALE_100, External("s")) }

  /** Customer 1 owns the sale; the row names customer 2. */
  function TwoCustomers(contact: Contact): Ledger {
    Ledger(map[1 := Customer(7, contact, false), 2 := Customer(7, contact, false)],
           map["b" := ExternalRef(2, contact)], map[KNOWN_KEY := KNOWN_RECORD], 3)
  }

  function BooksFor(l: Ledger): Books { Books(7, map[9 := OPEN_CAMPAIGN], map[], l.customers, l.sales) }

  /** A row with a known key and another customer moves the record, but only the new owner
      is recalculated: the old owner's snapshot still counts it. */
  lemma MovedRecordLeavesStaleSnapshot(contact: Contact)
    ensures var l := TwoCustomers(contact);
      var (m, outcomes) := CommitRows(l, 7, 0, [MovingRow(contact)]);
      && 1 !in Affected(outcomes) && Loses(l, 7, [MovingRow(contact)], 1)
      && Fresh(BooksFor(l), 9, 1).Ok? && Fresh(BooksFor(l), 9, 1).value.total == 100
      && Fresh(BooksFor(m), 9, 1).Ok? && Fresh(BooksFor(m), 9, 1).value.total == 0
  {
    var l, row := TwoCustomers(contact), MovingRow(contact);
    var (m, outcomes) := CommitRows(l, 7, 0, [row]);
    CommitRowsSnoc(l, 7, 0, [], row);
    assert [] + [row] == [row];
    MovingRowMoves(contact);
    assert Affected(outcomes) == {2};
    assert TakesFrom(l, 7, [row][0], 1);
    FreshTotal(BooksFor(l), map[KNOWN_KEY := KNOWN_RECORD], 100);
    FreshTotal(BooksFor(m), map[], 0);
  }

  lemma MovingRowMoves(contact: Contact)
    ensures var l := TwoCustomers(contact);
      var (m, outcome) := CommitRow(l, 7, 0, MovingRow(contact));
      && outcome.Done? && outcome.sale == Updated && outcome.customer == 2
      && (1 in m.customers && m.customers[1] == Customer(7, contact, false))
      && Window(l.sales, OPEN_CAMPAIGN, 1) == map[KNOWN_KEY := KNOWN_RECORD]
      && Window(m.sales, OPEN_CAMPAIGN, 1) == map[]
      && TakesFrom(l, 7, MovingRow(contact), 1)
  {
  }

  lemma ExampleRows(window: map<SourceKey, SaleRecord>)
    requires window == map[] || window == map[KNOWN_KEY := KNOWN_RECORD]
    ensures RowsOf(window) == if window == map[] then [] else [KNOWN_RECORD]
  {
    if window != map[] {
      assert AnyKey(window) == KNOWN_KEY;
      assert window - {KNOWN_KEY} == map[];
    }
  }

  const DEFAULT_RULES := Rules(Gross, false, false, true, AllValidDocuments, Exclude)

  lemma ExampleTotal()
    ensures MergedRules(OPEN_CAMPAIGN.rules) == Ok(DEFAULT_RULES)
    ensures Tally([], "UZS", DEFAULT_RULES).0 == 0 && Tally([KNOWN_RECORD], "UZS", DEFAULT_RULES).0 == 100
  {
    assert [] + [KNOWN_RECORD] == [KNOWN_RECORD];
    TallySnoc([], KNOWN_RECORD, "UZS", DEFAULT_RULES);
    assert Classify(KNOWN_RECORD, "UZS", DEFAULT_RULES) == Included;
    assert AmountForRecord(SALE_100, DEFAULT_RULES) == 100;
    assert SignedAmount(SALE_100, 100, DEFAULT_RULES) == 100;
  }

  lemma FreshTotal(books: Books, window: map<SourceKey, SaleRecord>, total: nat)
    requires 9 in books.campaigns && books.campaigns[9] == OPEN_CAMPAIGN
    requires LiveCustomer(books.customers, books.company, 1)
    requires Window(books.sales, OPEN_CAMPAIGN, 1) == window
    requires (window == map[] && total == 0) || (window == map[KNOWN_KEY := KNOWN_RECORD] && total == 100)
    ensures Fresh(books, 9, 1).Ok? && Fresh(books, 9, 1).value.total == total
  {
    assert KNOWN_KEY in map[KNOWN_KEY := KNOWN_RECORD];
    ExampleRows(window);
    ExampleTotal();
  }
}
