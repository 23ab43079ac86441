// The CSV import service: previewing a file, committing a batch, cancelling it.
module Imports {
  import opened Basics
  import opened Models
  import opened Database
  import opened Progress
  import opened Ledger
  import opened ImportRows
  import opened Batches
  import opened Coherence
  import opened Recalculation

  // ----- duplicate keys -----

  /** Another row without errors has the key of row i. */
  ghost predicate Shares(rows: seq<RowResult>, i: nat)
    requires i < |rows|
  {
    exists j :: 0 <= j < |rows| && j != i && HasKey(rows[j], rows[i].key)
  }

  predicate HasKey(r: RowResult, key: Option<IdempotencyKey>) { key.Some? && r.errors == [] && r.key == key }

  const DUPLICATE := "duplicate idempotency_key inside import file."

  ghost function MarkedAt(rows: seq<RowResult>, i: nat): RowResult
    requires i < |rows|
  {
    if rows[i].errors == [] && Shares(rows, i)
    then rows[i].(content := None, errors := [DUPLICATE]) else rows[i]
  }

  ghost function Marked(rows: seq<RowResult>): seq<RowResult> {
    seq(|rows|, i requires 0 <= i < |rows| => MarkedAt(rows, i))
  }

  function KeyCount(rows: seq<RowResult>, key: Option<IdempotencyKey>): nat {
    if rows == [] then 0
    else KeyCount(rows[..|rows| - 1], key) + if HasKey(rows[|rows| - 1], key) then 1 else 0
  }

  lemma {:induction false} NoKeyCounted(rows: seq<RowResult>, key: Option<IdempotencyKey>)
    ensures KeyCount(rows, key) == 0 <==> forall j :: 0 <= j < |rows| ==> !HasKey(rows[j], key)
  {
    if rows == [] {
    } else {
      var front := rows[..|rows| - 1];
      NoKeyCounted(front, key);
      assert forall j :: 0 <= j < |front| ==> front[j] == rows[j];
    }
  }

  /** The counter sees a duplicate exactly when the row shares its key. */
  lemma {:induction false} SharesIff(rows: seq<RowResult>, i: nat)
    requires i < |rows| && rows[i].errors == []
    ensures Shares(rows, i) <==> KeyCount(rows, rows[i].key) > 1
  {
    var n := |rows| - 1;
    var front, key := rows[..n], rows[i].key;
    assert forall j :: 0 <= j < n ==> front[j] == rows[j];
    NoKeyCounted(front, key);
    if i < n {
      SharesIff(front, i);
      if key.Some? {
        assert HasKey(front[i], key);
      }
      if HasKey(rows[n], key) {
        assert Shares(rows, i);
      } else if Shares(front, i) {
        var j :| 0 <= j < |front| && j != i && HasKey(front[j], front[i].key);
        assert HasKey(rows[j], rows[i].key);
      }
    } else if KeyCount(front, key) > 0 {
      var j :| 0 <= j < |front| && HasKey(front[j], key);
      assert HasKey(rows[j], rows[i].key);
    }
  }

  /** Counts the keys of the rows without errors, then marks every row whose key was
      counted more than once. */
  method MarkDuplicateIdempotencyKeys(rows: array<RowResult>)
    modifies rows
    ensures rows[..] == Marked(old(rows[..]))
  {
    ghost var before := rows[..];
    var counts: map<Option<IdempotencyKey>, nat> := map[];
    for i := 0 to rows.Length
      invariant rows[..] == before
      invariant forall key ::
        if key in counts then counts[key] == KeyCount(before[..i], key) else KeyCount(before[..i], key) == 0
    {
      assert before[..i + 1][..i] == before[..i];
      var key := rows[i].key;
      if key.Some? && rows[i].errors == [] {
        counts := counts[key := if key in counts then counts[key] + 1 else 1];
      }
    }
    assert before[..rows.Length] == before;
    var duplicates := set key | key in counts && counts[key] > 1;
    for i := 0 to rows.Length
      invariant forall j :: 0 <= j < i ==> rows[j] == MarkedAt(before, j)
      invariant forall j :: i <= j < rows.Length ==> rows[j] == before[j]
    {
      if rows[i].errors == [] {
        SharesIff(before, i);
        if rows[i].key in duplicates {
          rows[i] := rows[i].(errors := rows[i].errors + [DUPLICATE], content := None);
        }
      }
    }
  }

  // ----- previewing -----

  /** What the array of results holds once every row has been validated. */
  ghost predicate Validated(results: seq<RowResult>, contents: seq<Option<NormalizedRow>>) {
    && |results| == |contents|
    && forall i :: 0 <= i < |results| ==> ValidatedAs(results[i], contents[i], i + 2)
  }

  ghost predicate ValidatedAs(r: RowResult, content: Option<NormalizedRow>, number: nat) {
    && r.number == number && r.content == content
    && (r.errors == [] <==> content.Some?)
    && (content.Some? ==> r.key == Some(content.value.key))
  }

  function RowAt(raws: seq<RawRow>, i: nat): RawRow
    requires i < |raws|
  {
    raws[i]
  }

  /** contents is what validation leaves for each row. */
  ghost predicate ContentsAre(raws: seq<RawRow>, lib: Library, contents: seq<Option<NormalizedRow>>) {
    && |contents| == |raws|
    && forall i {:trigger RowAt(raws, i)} :: 0 <= i < |raws| ==> contents[i] == Content(RowAt(raws, i), lib)
  }

  method ValidateNth(raws: seq<RawRow>, i: nat, lib: Library, ghost contents: seq<Option<NormalizedRow>>)
    returns (r: RowResult)
    requires ContentsAre(raws, lib, contents) && i < |raws|
    ensures ValidatedAs(r, contents[i], i + 2)
  {
    r := ValidateRow(RowAt(raws, i), i + 2, lib);
  }

  method ValidateRows(raws: seq<RawRow>, lib: Library, ghost contents: seq<Option<NormalizedRow>>)
    returns (results: array<RowResult>)
    requires ContentsAre(raws, lib, contents)
    ensures fresh(results) && Validated(results[..], contents)
  {
    results := new RowResult[|raws|](_ => RowResult(0, None, [], None));
    for i := 0 to |raws|
      invariant forall j :: 0 <= j < i ==> ValidatedAs(results[j], contents[j], j + 2)
    {
      var r := ValidateNth(raws, i, lib, contents);
      results[i] := r;
    }
  }

  lemma ContentsOfRows(raws: seq<RawRow>, lib: Library)
    ensures ContentsAre(raws, lib, Contents(raws, lib))
  {
  }

  /** The rows of the batch and how many of them have no errors and errors. */
  method BuildRows(results: array<RowResult>) returns (rows: seq<ImportRow>, valid: nat, invalid: nat)
    ensures |rows| == results.Length
    ensures forall i :: 0 <= i < |rows| ==>
      rows[i] == ImportRow(results[i].number, results[i].content, if results[i].errors == [] then Valid else Invalid)
    ensures valid == CountStatus(rows, Valid) && invalid == CountStatus(rows, Invalid)
  {
    rows, valid, invalid := [], 0, 0;
    for i := 0 to results.Length
      invariant |rows| == i
      invariant forall j :: 0 <= j < i ==>
        rows[j] == ImportRow(results[j].number, results[j].content, if results[j].errors == [] then Valid else Invalid)
      invariant valid == CountStatus(rows, Valid) && invalid == CountStatus(rows, Invalid)
    {
      var status := if results[i].errors == [] then Valid else Invalid;
      var row := ImportRow(results[i].number, results[i].content, status);
      assert (rows + [row])[..i] == rows;
      rows := rows + [row];
      if status == Valid {
        valid := valid + 1;
      } else {
        invalid := invalid + 1;
      }
    }
  }

  lemma RowsArePreviewed(validated: seq<RowResult>, contents: seq<Option<NormalizedRow>>, results: seq<RowResult>,
                         rows: seq<ImportRow>)
    requires Validated(validated, contents) && results == Marked(validated) && |rows| == |results|
    requires forall i :: 0 <= i < |rows| ==>
      rows[i] == ImportRow(results[i].number, results[i].content, if results[i].errors == [] then Valid else Invalid)
    ensures rows == PreviewRows(contents)
  {
  }

  /** id is the new batch's id. */
  method PreviewCsv(session: Session, id: Id, raws: seq<RawRow>, lib: Library, maxRows: nat)
    returns (r: Result<(), Error>)
    requires id !in session.batches
    modifies session`batches
    ensures Outcome(old(StateOf(session)), Preview(id, Contents(raws, lib), maxRows), r.Ok?, StateOf(session))
  {
    if |raws| > maxRows {
      return Err(TooManyRows);
    }
    ghost var contents := Contents(raws, lib);
    ContentsOfRows(raws, lib);
    var results := ValidateRows(raws, lib, contents);
    ghost var validated := results[..];
    MarkDuplicateIdempotencyKeys(results);
    var rows, valid, invalid := BuildRows(results);
    RowsArePreviewed(validated, contents, results[..], rows);
    session.batches := session.batches[id := ImportBatch(Previewed, rows, |rows|, valid, invalid, 0, 0)];
    return Ok(());
  }

  // ----- committing -----

  /** Field by field: what is said and different replaces what is known. */
  method UpdateContact(known: Contact, said: Contact) returns (contact: Contact, updated: bool)
    ensures contact == Merge(known, said) && (updated <==> contact != known)
    ensures contact.name == said.name && contact.metadata == said.metadata
    ensures contact.phone == if said.phone.Some? then said.phone else known.phone
    ensures contact.email == if said.email.Some? then said.email else known.email
    ensures contact.taxId == if said.taxId.Some? then said.taxId else known.taxId
  {
    contact, updated := known, false;
    if contact.name != said.name {
      contact, updated := contact.(name := said.name), true;
    }
    if said.phone.Some? && contact.phone != said.phone {
      contact, updated := contact.(phone := said.phone), true;
    }
    if said.email.Some? && contact.email != said.email {
      contact, updated := contact.(email := said.email), true;
    }
    if said.taxId.Some? && contact.taxId != said.taxId {
      contact, updated := contact.(taxId := said.taxId), true;
    }
    if contact.metadata != said.metadata {
      contact, updated := contact.(metadata := said.metadata), true;
    }
  }

  /** The customer of a row, whether it is new and whether it changed. */
  method UpsertCustomer(session: Session, row: NormalizedRow) returns (r: Result<(Id, bool, bool), Error>)
    modifies session`customers, session`refs, session`nextCustomer
    ensures r.Err? <==> Foreign(old(LedgerOf(session)), session.company, row.customerExternalId)
    ensures r.Err? ==> LedgerOf(session) == old(LedgerOf(session))
    ensures r.Ok? ==> LedgerOf(session) == WithCustomer(old(LedgerOf(session)), session.company, row)
    ensures r.Ok? ==>
      var e, k := row.customerExternalId, OwnerId(old(LedgerOf(session)), row.customerExternalId);
      r.value == (k, e !in old(session.refs),
                  e in old(session.refs) && session.customers[k].contact != old(session.customers)[k].contact)
  {
    var e, contact := row.customerExternalId, Tidy(row.contact);
    if e !in session.refs {
      var k := session.nextCustomer;
      session.nextCustomer := k + 1;
      session.customers := session.customers[k := Customer(session.company, contact, false)];
      session.refs := session.refs[e := ExternalRef(k, contact)];
      return Ok((k, true, false));
    }
    var k := session.refs[e].customer;
    if k !in session.customers || session.customers[k].company != session.company {
      return Err(LinkedCustomerNotFound);
    }
    var known, updated := UpdateContact(session.customers[k].contact, contact);
    session.customers := session.customers[k := session.customers[k].(contact := known)];
    session.refs := session.refs[e := ExternalRef(k, contact)];
    return Ok((k, false, updated));
  }

  method UpsertSaleRecord(session: Session, batch: Id, row: NormalizedRow, customer: Id) returns (action: SaleAction)
    modifies session`sales
    ensures LedgerOf(session) == WithSale(old(LedgerOf(session)), batch, row, customer)
    ensures action == SaleActionFor(old(LedgerOf(session)), row)
  {
    var key := Csv(row.key);
    if key !in session.sales {
      session.sales := session.sales[key := RecordFrom(row, customer, batch, false)];
      return Created;
    }
    var existing := session.sales[key];
    if existing.content == Some(row) {
      return Skipped;
    }
    existing := existing.(customer := customer, batch := Some(batch), document := row.document,
                          deletedInSource := row.document.status == Deleted,
                          sourceCustomer := Some(row.customerExternalId), content := Some(row));
    session.sales := session.sales[key := existing];
    return Updated;
  }

  method CommitOneRow(session: Session, batch: Id, row: NormalizedRow) returns (outcome: RowOutcome)
    modifies session`customers, session`refs, session`sales, session`nextCustomer
    ensures (LedgerOf(session), outcome) == CommitRow(old(LedgerOf(session)), session.company, batch, row)
  {
    var customer := UpsertCustomer(session, row);
    if customer.Err? {
      return Failed;
    }
    var action := UpsertSaleRecord(session, batch, row, customer.value.0);
    outcome := Done(customer.value.1, customer.value.2, action, customer.value.0);
  }

  /** What the loop has done after some rows. */
  ghost predicate Progressed(before: Ledger, company: Id, id: Id, rows: seq<ImportRow>, now: Ledger,
                             settled: seq<ImportRow>, stats: CommitStats, affected: set<Id>, outcomes: seq<RowOutcome>)
  {
    && CommitRows(before, company, id, ValidContents(rows)) == (now, outcomes)
    && settled == Settled(rows, outcomes)
    && stats == Tallied(outcomes) && affected == Affected(outcomes)
  }

  lemma ProgressedOne(before: Ledger, company: Id, id: Id, rows: seq<ImportRow>, mid: Ledger,
                      settled: seq<ImportRow>, stats: CommitStats, affected: set<Id>, outcomes: seq<RowOutcome>,
                      row: ImportRow, now: Ledger, outcome: RowOutcome)
    requires Progressed(before, company, id, rows, mid, settled, stats, affected, outcomes)
    requires IsValid(row) && CommitRow(mid, company, id, row.content.value) == (now, outcome)
    ensures Progressed(before, company, id, rows + [row], now, settled + [row.(status := StatusAfter(outcome))],
                       Counted(stats, outcome),
                       affected + (if outcome.Done? && outcome.sale != Skipped then {outcome.customer} else {}),
                       outcomes + [outcome])
  {
    SettledSnocOpen(rows, row, outcomes);
    CommitRowsSnoc(before, company, id, ValidContents(rows), row.content.value);
    OutcomesSnoc(outcomes, outcome);
  }

  lemma ProgressedPast(before: Ledger, company: Id, id: Id, rows: seq<ImportRow>, now: Ledger,
                       settled: seq<ImportRow>, stats: CommitStats, affected: set<Id>, outcomes: seq<RowOutcome>,
                       row: ImportRow)
    requires Progressed(before, company, id, rows, now, settled, stats, affected, outcomes) && !IsValid(row)
    ensures Progressed(before, company, id, rows + [row], now, settled + [row], stats, affected, outcomes)
  {
    SettledSnocOpen(rows, row, outcomes);
  }

  /** One row: a valid row is committed, and skipped if that raises; others are passed. */
  method CommitNext(session: Session, id: Id, row: ImportRow, stats: CommitStats, affected: set<Id>,
                    ghost before: Ledger, ghost rows: seq<ImportRow>, ghost settled: seq<ImportRow>,
                    ghost outcomes: seq<RowOutcome>)
    returns (row': ImportRow, stats': CommitStats, affected': set<Id>, ghost outcomes': seq<RowOutcome>)
    requires Progressed(before, session.company, id, rows, LedgerOf(session), settled, stats, affected, outcomes)
    modifies session`customers, session`refs, session`sales, session`nextCustomer
    ensures Progressed(before, session.company, id, rows + [row], LedgerOf(session), settled + [row'], stats',
                       affected', outcomes')
  {
    if !IsValid(row) {
      ProgressedPast(before, session.company, id, rows, LedgerOf(session), settled, stats, affected, outcomes, row);
      return row, stats, affected, outcomes;
    }
    ghost var mid := LedgerOf(session);
    var outcome := CommitOneRow(session, id, row.content.value);
    ProgressedOne(before, session.company, id, rows, mid, settled, stats, affected, outcomes, row,
                  LedgerOf(session), outcome);
    row' := row.(status := if outcome.Failed? || outcome.sale == Skipped then SkippedRow else CommittedRow);
    stats' := Counted(stats, outcome);
    affected' := affected + if outcome.Done? && outcome.sale != Skipped then {outcome.customer} else {};
    outcomes' := outcomes + [outcome];
  }

  /** Goes through the rows of a batch in order. */
  method CommitAllRows(session: Session, id: Id, rows: seq<ImportRow>)
    returns (settled: seq<ImportRow>, stats: CommitStats, affected: set<Id>, ghost outcomes: seq<RowOutcome>)
    modifies session`customers, session`refs, session`sales, session`nextCustomer
    ensures Progressed(old(LedgerOf(session)), session.company, id, rows, LedgerOf(session), settled, stats,
                       affected, outcomes)
  {
    ghost var before := LedgerOf(session);
    settled, stats, affected, outcomes := [], CommitStats(0, 0, 0, 0, 0, 0), {}, [];
    NothingYet(before, session.company, id);
    for i := 0 to |rows|
      invariant Progressed(before, session.company, id, rows[..i], LedgerOf(session), settled, stats,
                           affected, outcomes)
    {
      assert rows[..i + 1] == rows[..i] + [rows[i]];
      var row;
      row, stats, affected, outcomes :=
        CommitNext(session, id, rows[i], stats, affected, before, rows[..i], settled, outcomes);
      settled := settled + [row];
    }
    assert rows[..|rows|] == rows;
  }

  lemma NothingYet(l: Ledger, company: Id, id: Id)
    ensures Progressed(l, company, id, [], l, [], CommitStats(0, 0, 0, 0, 0, 0), {}, [])
  {
  }

  /** Recalculates the customers in every active campaign, stopping at the first failure. */
  method RecalculateProgress(session: Session, customers: set<Id>) returns (r: Result<nat, Error>)
    requires LaddersReady(session.tiers)
    modifies session`progress, session`progressLog
    ensures r.Ok? <==> AllFresh(BooksOf(session), customers)
    ensures r.Ok? ==> SoFar(BooksOf(session), old(CacheOf(session)), CacheOf(session),
                            ActiveCampaigns(session.campaigns), customers)
  {
    ghost var before := CacheOf(session);
    var rest := ActiveCampaigns(session.campaigns);
    ghost var all := rest;
    if customers == {} {
      NothingToRefresh(BooksOf(session), before, all);
      return Ok(0);
    }
    var count := 0;
    NothingRefreshed(BooksOf(session), before, customers);
    assert all - rest == {};
    while rest != {}
      invariant rest <= all && ActiveCampaigns(session.campaigns) == all
      invariant SoFar(BooksOf(session), before, CacheOf(session), all - rest, customers)
    {
      var c :| c in rest;
      assert all - (rest - {c}) == all - rest + {c};
      var outcome := RecalculateCampaign(session, c, customers, before, all - rest);
      if outcome.Err? {
        return outcome;
      }
      rest := rest - {c};
      count := count + outcome.value;
    }
    assert all - rest == all;
    return Ok(count);
  }

  lemma EffectOfCalls(books: Books, l: Ledger, cache: Cache, id: Id, rows: seq<ImportRow>, settled: seq<ImportRow>,
                      stats: CommitStats, affected: set<Id>, outcomes: seq<RowOutcome>, end: Ledger,
                      ok: bool, cacheAfter: Cache)
    requires Progressed(l, books.company, id, rows, end, settled, stats, affected, outcomes)
    requires ok <==> AllFresh(BooksWith(books, end), affected)
    requires ok ==> SoFar(BooksWith(books, end), cache, cacheAfter, ActiveCampaigns(books.campaigns), affected)
    ensures RowsEffect(books, l, cache, id, rows, outcomes, ok, if ok then end else l, if ok then cacheAfter else cache)
    ensures settled == Settled(rows, outcomes) && stats == Tallied(outcomes)
  {
  }

  method TryRowsAndProgress(session: Session, id: Id, rows: seq<ImportRow>)
    returns (settled: seq<ImportRow>, stats: CommitStats, recalculated: Result<nat, Error>,
             ghost affected: set<Id>, ghost outcomes: seq<RowOutcome>)
    requires LaddersReady(session.tiers)
    modifies session`customers, session`refs, session`sales, session`nextCustomer, session`progress, session`progressLog
    ensures Progressed(old(LedgerOf(session)), session.company, id, rows, LedgerOf(session), settled, stats,
                       affected, outcomes)
    ensures recalculated.Ok? <==> AllFresh(BooksWith(old(BooksOf(session)), LedgerOf(session)), affected)
    ensures recalculated.Ok? ==> SoFar(BooksWith(old(BooksOf(session)), LedgerOf(session)), old(CacheOf(session)),
                                       CacheOf(session), ActiveCampaigns(session.campaigns), affected)
  {
    ghost var books := BooksOf(session);
    var customers;
    settled, stats, customers, outcomes := CommitAllRows(session, id, rows);
    affected := customers;
    assert BooksOf(session) == BooksWith(books, LedgerOf(session));
    recalculated := RecalculateProgress(session, customers);
  }

  /** The rows and then the progress; if the progress fails the transaction is rolled back. */
  method CommitRowsAndProgress(session: Session, id: Id, rows: seq<ImportRow>)
    returns (r: Result<(seq<ImportRow>, CommitStats), Error>, ghost outcomes: seq<RowOutcome>)
    requires LaddersReady(session.tiers)
    modifies session`customers, session`refs, session`sales, session`nextCustomer, session`progress, session`progressLog
    ensures RowsEffect(old(BooksOf(session)), old(LedgerOf(session)), old(CacheOf(session)), id, rows, outcomes,
                       r.Ok?, LedgerOf(session), CacheOf(session))
    ensures r.Ok? ==> r.value == (Settled(rows, outcomes), Tallied(outcomes))
  {
    var customers, refs, sales, next := session.customers, session.refs, session.sales, session.nextCustomer;
    var progress, log := session.progress, session.progressLog;
    ghost var books, ledger, cache := BooksOf(session), LedgerOf(session), CacheOf(session);
    var settled, stats, recalculated;
    ghost var affected;
    settled, stats, recalculated, affected, outcomes := TryRowsAndProgress(session, id, rows);
    EffectOfCalls(books, ledger, cache, id, rows, settled, stats, affected, outcomes, LedgerOf(session),
                  recalculated.Ok?, CacheOf(session));
    if recalculated.Err? {
      session.customers, session.refs, session.sales, session.nextCustomer := customers, refs, sales, next;
      session.progress, session.progressLog := progress, log;
      return Err(recalculated.error), outcomes;
    }
    return Ok((settled, stats)), outcomes;
  }

  method MarkCommitted(session: Session, id: Id, settled: seq<ImportRow>, stats: CommitStats)
    requires id in session.batches
    modifies session`batches, session`importLog
    ensures session.batches == old(session.batches)[id := WithResult(old(session.batches)[id], settled, stats)]
    ensures session.importLog == old(session.importLog) + [id]
  {
    var batch := session.batches[id];
    batch := batch.(status := CommittedBatch);
    batch := batch.(committedRows := stats.createdSales + stats.updatedSales);
    batch := batch.(skippedRows := stats.skippedSales + stats.failedRows, rows := settled);
    session.batches := session.batches[id := batch];
    session.importLog := session.importLog + [id];
  }

  /** Commits a batch, or raises and leaves every table as it was. Afterwards every
      affected customer is up to date in every active campaign, no other cache entry has
      moved and the event stream still replays to the cache. */
  method CommitBatch(session: Session, id: Id) returns (r: Result<(), Error>)
    requires LaddersReady(session.tiers)
    modifies session`customers, session`refs, session`sales, session`nextCustomer, session`progress,
             session`progressLog, session`batches, session`importLog
    ensures CommitEffect(old(BooksOf(session)), old(StateOf(session)), old(CacheOf(session)), id,
                         r.Ok?, StateOf(session), CacheOf(session))
  {
    ghost var books, before, cache := BooksOf(session), StateOf(session), CacheOf(session);
    if id !in session.batches {
      NotCommitted(books, before, cache, id);
      return Err(BatchNotFound);
    }
    var batch := session.batches[id];
    if batch.status == CommittedBatch || batch.status == CancelledBatch || batch.status == FailedBatch {
      NotCommitted(books, before, cache, id);
      return Err(BatchNotCommittable);
    }
    var done, outcomes := CommitRowsAndProgress(session, id, batch.rows);
    EffectOfRows(books, before, cache, id, outcomes, done.Ok?, LedgerOf(session), CacheOf(session));
    if done.Err? {
      return Err(done.error);
    }
    MarkCommitted(session, id, done.value.0, done.value.1);
    return Ok(());
  }

  method CancelBatch(session: Session, id: Id) returns (r: Result<(), Error>)
    modifies session`batches
    ensures Outcome(old(StateOf(session)), Cancel(id), r.Ok?, StateOf(session))
  {
    if id !in session.batches {
      return Err(BatchNotFound);
    }
    var batch := session.batches[id];
    if batch.status == CommittedBatch {
      return Err(BatchAlreadyCommitted);
    }
    if batch.status != CancelledBatch {
      batch := batch.(status := CancelledBatch);
    }
    session.batches := session.batches[id := batch];
    return Ok(());
  }
}
