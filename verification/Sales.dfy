// The ledger's other entry point: sale records created and rewritten one at a time.
module Sales {
  import opened Basics
  import opened Models
  import opened Database
  import opened Ladder
  import opened Totals
  import opened Progress
  import opened Ledger
  import opened ImportRows
  import opened Strings
  import opened Freshness

  /** A request; its key has been stripped of outer blanks. */
  datatype SaleRequest = SaleRequest(
    customer: Id, key: SourceKey, document: Document, sourceCustomer: Option<string>)

  /** What the request schema has checked before the service is called. */
  predicate SchemaValid(r: SaleRequest) {
    && (r.document.sign == 1 || r.document.sign == -1)
    && r.document.gross >= 0
    && (r.document.net.Some? ==> r.document.net.value >= 0)
    && (r.document.paid.Some? ==> r.document.paid.value >= 0)
  }

  // ----- the specification -----

  /** Why a request is refused, if it is. */
  function Refusal(s: Books, r: SaleRequest): Option<Error> {
    if !LiveCustomer(s.customers, s.company, r.customer) then Some(CustomerNotFound)
    else if (IsReturn(r.document) && r.document.sign != -1) || (r.document.kind == Sale && r.document.sign != 1)
      then Some(SignMismatch)
    else if NormalizeCurrency(r.document.currency).None? then Some(BadCurrency)
    else None
  }

  /** Creating also refuses a taken key, after looking for the customer. */
  function CreateRefusal(s: Books, r: SaleRequest): Option<Error> {
    if LiveCustomer(s.customers, s.company, r.customer) && r.key in s.sales then Some(SourceKeyTaken)
    else Refusal(s, r)
  }

  function Stored(r: SaleRequest): Document
    requires NormalizeCurrency(r.document.currency).Some?
  {
    r.document.(currency := NormalizeCurrency(r.document.currency).value)
  }

  /** The row an accepted request leaves. A rewrite keeps the batch, the content hash and
      the deletion mark of the row it finds. */
  function RowFor(sales: map<SourceKey, SaleRecord>, r: SaleRequest): SaleRecord
    requires NormalizeCurrency(r.document.currency).Some?
  {
    var removed := r.document.status == Deleted;
    if r.key in sales
    then sales[r.key].(customer := r.customer, document := Stored(r), sourceCustomer := r.sourceCustomer,
                       deletedInSource := removed)
    else SaleRecord(r.customer, Stored(r), r.sourceCustomer, removed, None, None, false)
  }

  function Upserted(s: Books, r: SaleRequest): map<SourceKey, SaleRecord> {
    if Refusal(s, r).Some? then s.sales else s.sales[r.key := RowFor(s.sales, r)]
  }

  // ----- the service -----

  /** A call fails with the refusal there is, and succeeds without one. */
  predicate Answer(refusal: Option<Error>, result: Result<SaleRecord, Error>) {
    if refusal.Some? then result == Err(refusal.value) else result.Ok?
  }

  method ValidateDocumentSign(kind: DocumentKind, sign: int) returns (r: Result<(), Error>)
    ensures sign == 1 || sign == -1 ==> (r.Ok? <==> SignFits(kind, sign))
    ensures r.Ok? <==> (kind == Return || kind == Refund ==> sign == -1) && (kind == Sale ==> sign == 1)
    ensures r.Err? ==> r.error == SignMismatch
  {
    if kind == Return || kind == Refund {
      if sign != -1 {
        return Err(SignMismatch);
      }
    }
    if kind == Sale && sign != 1 {
      return Err(SignMismatch);
    }
    return Ok(());
  }

  method CreateSaleRecord(session: Session, r: SaleRequest) returns (result: Result<SaleRecord, Error>)
    modifies session`sales
    ensures Answer(CreateRefusal(old(BooksOf(session)), r), result)
    ensures session.sales == if result.Ok? then Upserted(old(BooksOf(session)), r) else old(session.sales)
    ensures result.Ok? ==> r.key in session.sales && result.value == session.sales[r.key]
  {
    if r.customer !in session.customers || session.customers[r.customer].company != session.company
       || session.customers[r.customer].deleted {
      return Err(CustomerNotFound);
    }
    if r.key in session.sales {
      return Err(SourceKeyTaken);
    }
    var sign := ValidateDocumentSign(r.document.kind, r.document.sign);
    if sign.Err? {
      return Err(sign.error);
    }
    var currency := NormalizeCurrency(r.document.currency);
    if currency.None? {
      return Err(BadCurrency);
    }
    var record := SaleRecord(r.customer, r.document.(currency := currency.value), r.sourceCustomer,
                             r.document.status == Deleted, None, None, false);
    session.sales := session.sales[r.key := record];
    return Ok(record);
  }

  method UpsertSaleRecordBySourceKey(session: Session, r: SaleRequest) returns (result: Result<SaleRecord, Error>)
    modifies session`sales
    ensures Answer(Refusal(old(BooksOf(session)), r), result)
    ensures session.sales == Upserted(old(BooksOf(session)), r)
    ensures result.Ok? ==> r.key in session.sales && result.value == session.sales[r.key]
  {
    if r.key !in session.sales {
      result := CreateSaleRecord(session, r);
      return;
    }
    if r.customer !in session.customers || session.customers[r.customer].company != session.company
       || session.customers[r.customer].deleted {
      return Err(CustomerNotFound);
    }
    var sign := ValidateDocumentSign(r.document.kind, r.document.sign);
    if sign.Err? {
      return Err(sign.error);
    }
    var currency := NormalizeCurrency(r.document.currency);
    if currency.None? {
      return Err(BadCurrency);
    }
    var existing := session.sales[r.key];
    existing := existing.(customer := r.customer, document := r.document.(currency := currency.value));
    existing := existing.(deletedInSource := r.document.status == Deleted, sourceCustomer := r.sourceCustomer);
    session.sales := session.sales[r.key := existing];
    return Ok(existing);
  }

  // ----- the calls on the columns of the rows -----

  /** Exactly when a request is accepted: a live customer of the company, sign -1 for a
      return or refund and 1 for a sale, and a currency code; the first that fails is the
      error. */
  lemma RefusalOnFields(s: Books, r: SaleRequest)
    ensures var customerFits := r.customer in s.customers && s.customers[r.customer].company == s.company
                                && !s.customers[r.customer].deleted;
      var kind, sign := r.document.kind, r.document.sign;
      var signIsFine := (kind == Return || kind == Refund ==> sign == -1) && (kind == Sale ==> sign == 1);
      Refusal(s, r) == if !customerFits then Some(CustomerNotFound)
                       else if !signIsFine then Some(SignMismatch)
                       else if NormalizeCurrency(r.document.currency).None? then Some(BadCurrency)
                       else None
    ensures CreateRefusal(s, r)
         == if Refusal(s, r) != Some(CustomerNotFound) && r.key in s.sales then Some(SourceKeyTaken) else Refusal(s, r)
  {
  }

  /** What an accepted request stores: the document with the currency in capitals, for the
      customer asked for; a new record is live and came from no batch, a rewritten one keeps
      its batch, its content hash and its deletion mark. No other record changes. */
  lemma StoredOnFields(s: Books, r: SaleRequest)
    requires Refusal(s, r).None?
    ensures r.key in Upserted(s, r) && Upserted(s, r) == s.sales[r.key := Upserted(s, r)[r.key]]
    ensures var row := Upserted(s, r)[r.key];
      && row.customer == r.customer && row.sourceCustomer == r.sourceCustomer
      && row.document == r.document.(currency := NormalizeCurrency(r.document.currency).value)
      && (row.deletedInSource <==> r.document.status == Deleted)
      && (r.key !in s.sales ==> row.batch == None && row.content == None && !row.deleted)
      && (r.key in s.sales ==>
            && row.batch == s.sales[r.key].batch && row.content == s.sales[r.key].content
            && row.deleted == s.sales[r.key].deleted)
  {
  }

  // ----- what an accepted request means for progress -----

  /** Both entry points of the ledger admit the same sale documents. */
  lemma AcceptedSalesAreAdmitted(s: Books, r: SaleRequest)
    requires SchemaValid(r) && Refusal(s, r).None?
    ensures SignFits(Stored(r).kind, Stored(r).sign)
    ensures Stored(r).kind == Sale ==> AdmittedSale(Stored(r))
  {
  }

  /** An upsert made twice is an upsert made once. */
  lemma UpsertTwice(s: Books, r: SaleRequest)
    ensures Upserted(s.(sales := Upserted(s, r)), r) == Upserted(s, r)
  {
  }

  /** A new record shows in its customer's window exactly when it falls in the period. */
  lemma WindowOfNewRecord(sales: map<SourceKey, SaleRecord>, key: SourceKey, r: SaleRecord, campaign: Campaign)
    requires key !in sales && !r.deleted
    ensures var was, now := Window(sales, campaign, r.customer), Window(sales[key := r], campaign, r.customer);
            if campaign.startDate <= r.document.effectiveDate <= campaign.endDate
            then multiset(RowsOf(now)) == multiset(RowsOf(was)) + multiset{r}
            else now == was
  {
    var was, now := Window(sales, campaign, r.customer), Window(sales[key := r], campaign, r.customer);
    if campaign.startDate <= r.document.effectiveDate <= campaign.endDate {
      assert now - {key} == was;
      RowsRemove(now, key);
    } else {
      assert now == was;
    }
  }

  /** Total, tier position and percentage of one snapshot do not exceed the other's. */
  ghost predicate NotAbove(low: Snapshot, high: Snapshot, ladder: seq<Rung>) {
    && low.total <= high.total
    && Reached(low.total, ladder) <= Reached(high.total, ladder)
    && (Reached(low.total, ladder) == Reached(high.total, ladder) ==>
          low.currentTier == high.currentTier && low.basisPoints <= high.basisPoints)
  }

  /** Creating a sale through the service never lowers the buyer's standing in any
      campaign, creating a return or refund never raises it. */
  lemma NewRecordMovesStanding(s: Books, r: SaleRequest, c: Id)
    requires SchemaValid(r) && Refusal(s, r).None? && r.key !in s.sales
    requires Fresh(s, c, r.customer).Ok? && Fresh(s.(sales := Upserted(s, r)), c, r.customer).Ok?
    ensures var before, after := Fresh(s, c, r.customer).value, Fresh(s.(sales := Upserted(s, r)), c, r.customer).value;
            && (r.document.kind == Sale ==> NotAbove(before, after, LadderOf(s.tiers, c)))
            && (IsReturn(r.document) ==> NotAbove(after, before, LadderOf(s.tiers, c)))
  {
    var campaign, ladder, record := s.campaigns[c], LadderOf(s.tiers, c), RowFor(s.sales, r);
    var was, now := Window(s.sales, campaign, r.customer), Window(Upserted(s, r), campaign, r.customer);
    WindowOfNewRecord(s.sales, r.key, record, campaign);
    AcceptedSalesAreAdmitted(s, r);
    if now != was && (r.document.kind == Sale || IsReturn(r.document)) {
      StandingMonotone(campaign, ladder, RowsOf(was), RowsOf(now), record);
    }
  }

  // ----- what a write does to the cache -----

  predicate HadInPeriod(s: Books, r: SaleRequest, campaign: Campaign, k: Id) {
    r.key in s.sales && s.sales[r.key].customer == k && InPeriod(s.sales[r.key], campaign)
  }

  predicate HasInPeriod(s: Books, r: SaleRequest, campaign: Campaign, k: Id)
    requires Refusal(s, r).None?
  {
    r.customer == k && InPeriod(RowFor(s.sales, r), campaign)
  }

  /** The write leaves customer k's recomputation in the campaign as it was: it neither
      brings a record into k's window nor takes one out, and a record it rewrites there
      has the same effect as before. */
  ghost predicate Harmless(s: Books, r: SaleRequest, c: Id, k: Id)
    requires c in s.campaigns && Refusal(s, r).None?
  {
    var campaign := s.campaigns[c];
    var rules := MergedRules(campaign.rules);
    if HadInPeriod(s, r, campaign, k) && HasInPeriod(s, r, campaign, k) && rules.Ok? then
      var rest := Tally(RowsOf(Window(s.sales, campaign, k) - {r.key}), campaign.currency, rules.value).0;
      SameEffect(s.sales[r.key], RowFor(s.sales, r), rest, campaign.currency, rules.value)
    else HadInPeriod(s, r, campaign, k) == HasInPeriod(s, r, campaign, k)
  }

  /** The service recalculates nothing, so after an accepted write a customer that was up
      to date in a campaign, buyer, former owner or any other, still is if and only if the
      write was harmless to it. */
  lemma WriteKeepsUpToDateIff(s: Books, cache: Cache, r: SaleRequest, c: Id, k: Id)
    requires c in s.campaigns && Refusal(s, r).None? && UpToDate(s, cache, c, k)
    ensures UpToDate(s.(sales := Upserted(s, r)), cache, c, k) <==> Harmless(s, r, c, k)
  {
    var campaign, now := s.campaigns[c], s.(sales := Upserted(s, r));
    var a, b := Window(s.sales, campaign, k), Window(now.sales, campaign, k);
    WindowsAround(s, r, campaign, k);
    if r.key in a && r.key in b {
      ReplacedIff(s, now, c, k, r.key);
    } else {
      AtMostOneKey(a, b, r.key);
      FewerOrMoreIff(s, now, c, k);
    }
  }

  lemma WindowsAround(s: Books, r: SaleRequest, campaign: Campaign, k: Id)
    requires Refusal(s, r).None?
    ensures var a, b := Window(s.sales, campaign, k), Window(Upserted(s, r), campaign, k);
      && (r.key in a <==> HadInPeriod(s, r, campaign, k))
      && (r.key in b <==> HasInPeriod(s, r, campaign, k))
      && a - {r.key} == b - {r.key}
  {
  }

  lemma AtMostOneKey(a: map<SourceKey, SaleRecord>, b: map<SourceKey, SaleRecord>, key: SourceKey)
    requires a - {key} == b - {key} && !(key in a && key in b)
    ensures PartOf(a, b) || PartOf(b, a)
    ensures a == b <==> (key in a <==> key in b)
  {
    assert forall other :: other != key && other in a ==> other in a - {key};
    assert forall other :: other != key && other in b ==> other in b - {key};
    if key in b {
      forall other | other in a ensures other in b && a[other] == b[other] {
        assert (a - {key})[other] == (b - {key})[other];
      }
    } else {
      forall other | other in b ensures other in a && a[other] == b[other] {
        assert (a - {key})[other] == (b - {key})[other];
      }
    }
  }

  /** A new record leaves its buyer up to date exactly when it is outside the period. */
  lemma NewRecordKeepsUpToDateIff(s: Books, cache: Cache, r: SaleRequest, c: Id)
    requires c in s.campaigns && Refusal(s, r).None? && UpToDate(s, cache, c, r.customer) && r.key !in s.sales
    ensures UpToDate(s.(sales := Upserted(s, r)), cache, c, r.customer)
       <==> !(s.campaigns[c].startDate <= r.document.effectiveDate <= s.campaigns[c].endDate)
  {
    WriteKeepsUpToDateIff(s, cache, r, c, r.customer);
  }

  // ----- the content hash -----

  /** The content hash of a record describes its document. */
  predicate HashTells(r: SaleRecord) { r.content.Some? ==> r.document == r.content.value.document }

  ghost predicate HashesTell(sales: map<SourceKey, SaleRecord>) {
    forall key :: key in sales ==> HashTells(sales[key])
  }

  /** Imports keep that, in any number. */
  lemma {:induction false} ImportsKeepHashes(l: Ledger, company: Id, batch: Id, rows: seq<NormalizedRow>)
    requires HashesTell(l.sales)
    ensures HashesTell(CommitRows(l, company, batch, rows).0.sales)
  {
    if rows == [] {
    } else {
      ImportsKeepHashes(l, company, batch, rows[..|rows| - 1]);
      ImportKeepsHashes(CommitRows(l, company, batch, rows[..|rows| - 1]).0, company, batch, rows[|rows| - 1]);
    }
  }

  lemma ImportKeepsHashes(l: Ledger, company: Id, batch: Id, row: NormalizedRow)
    requires HashesTell(l.sales)
    ensures HashesTell(CommitRow(l, company, batch, row).0.sales)
  {
  }

  /** An upsert through the service does not touch the hash, so it keeps it true if and
      only if it leaves the document of an imported record as the hash has it. */
  lemma UpsertKeepsHashesIff(s: Books, r: SaleRequest)
    requires HashesTell(s.sales) && Refusal(s, r).None?
    ensures HashesTell(Upserted(s, r))
       <==> r.key in s.sales && s.sales[r.key].content.Some? ==> s.sales[r.key].document == Stored(r)
  {
    assert HashTells(RowFor(s.sales, r)) <== HashesTell(Upserted(s, r)) by {
      assert r.key in Upserted(s, r);
    }
  }

  /** Importing a row makes its record say what the row says, unless the record's hash
      already claims so while its document does not. */
  lemma ImportTakesEffectIff(l: Ledger, company: Id, batch: Id, row: NormalizedRow)
    requires !Foreign(l, company, row.customerExternalId)
    ensures var key, m := Csv(row.key), CommitRow(l, company, batch, row).0;
      && key in m.sales
      && (m.sales[key].document == row.document
          <==> !(key in l.sales && l.sales[key].content == Some(row) && l.sales[key].document != row.document))
  {
  }

  /** So an import cannot undo a manual rewrite of a record it once made: the row is
      skipped and the rewritten amount stays. */
  lemma ManualRewriteSurvivesImport(s: Books, l: Ledger, batch: Id, row: NormalizedRow, r: SaleRequest)
    requires l.sales == Upserted(s, r) && Refusal(s, r).None? && r.key == Csv(row.key)
    requires r.key in s.sales && s.sales[r.key].content == Some(row) && Stored(r) != row.document
    requires !Foreign(l, s.company, row.customerExternalId)
    ensures SaleActionFor(l, row) == Skipped
    ensures CommitRow(l, s.company, batch, row).0.sales == l.sales
    ensures CommitRow(l, s.company, batch, row).0.sales[r.key].document == Stored(r)
  {
  }
}
