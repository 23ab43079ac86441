// Folding a customer's sale records into a campaign total.
module Totals {
  import opened Basics
  import opened Models

  // ----- rules -----

  predicate Truthy(v: RuleValue) {
    match v
    case Null => false
    case Flag(b) => b
    case Number(n) => n != 0
    case Text(word) => word != OtherWord("")
    case Container(empty) => !empty
  }

  function OrDefault(stored: Option<RuleValue>, default: RuleValue): RuleValue {
    match stored
    case None => default
    case Some(v) => v
  }

  /** The stored rules over the defaults, or the first field with an unknown value. */
  function MergedRules(stored: StoredRules): Result<Rules, Error> {
    var basis := OrDefault(stored.amountBasis, Text(GrossWord));
    var payment := OrDefault(stored.paymentRule, Text(AllValidDocumentsWord));
    var mismatch := OrDefault(stored.currencyMismatchPolicy, Text(ExcludeWord));
    if !(basis.Text? && (basis.word.GrossWord? || basis.word.NetWord? || basis.word.PaidWord?)) then
      Err(UnsupportedAmountBasis)
    else if !(payment.Text? && (payment.word.AllValidDocumentsWord? || payment.word.PaidOnlyWord?
                                || payment.word.PaidAmountOnlyWord?)) then
      Err(UnsupportedPaymentRule)
    else if !(mismatch.Text? && (mismatch.word.ExcludeWord? || mismatch.word.FailWord?)) then
      Err(UnsupportedMismatchPolicy)
    else Ok(Rules(
      if basis.word.GrossWord? then Gross else if basis.word.NetWord? then Net else PaidBasis,
      Truthy(OrDefault(stored.includeCancelled, Flag(false))),
      Truthy(OrDefault(stored.includeDeleted, Flag(false))),
      Truthy(OrDefault(stored.subtractReturns, Flag(true))),
      if payment.word.AllValidDocumentsWord? then AllValidDocuments
      else if payment.word.PaidOnlyWord? then PaidOnly else PaidAmountOnly,
      if mismatch.word.ExcludeWord? then Exclude else Fail))
  }

  // ----- one record -----

  function AmountForRecord(d: Document, rules: Rules): int {
    var paid := match d.paid { case Some(p) => p case None => 0 };
    if rules.payment == PaidAmountOnly then paid
    else match rules.basis {
      case Gross => d.gross
      case Net => if d.net.Some? then d.net.value else d.gross
      case PaidBasis => paid
    }
  }

  predicate IsReturn(d: Document) { d.kind == Return || d.kind == Refund }

  function SignedAmount(d: Document, amount: int, rules: Rules): int {
    if IsReturn(d) then if rules.subtractReturns then -Abs(amount) else 0
    else amount * d.sign
  }

  /** Where a record ends up, the first reason winning. */
  datatype Bucket = Included | Mismatched | CancelledDocument | DeletedDocument | ReturnIgnored | NotPaid

  function Classify(r: SaleRecord, currency: string, rules: Rules): Bucket {
    var d := r.document;
    if d.currency != currency then Mismatched
    else if d.status == Cancelled && !rules.includeCancelled then CancelledDocument
    else if (d.status == Deleted || r.deletedInSource) && !rules.includeDeleted then DeletedDocument
    else if IsReturn(d) && !rules.subtractReturns then ReturnIgnored
    else if rules.payment == PaidOnly && d.payment != Paid then NotPaid
    else Included
  }

  function Contribution(r: SaleRecord, currency: string, rules: Rules): int {
    if Classify(r, currency, rules) == Included
    then SignedAmount(r.document, AmountForRecord(r.document, rules), rules) else 0
  }

  function Bump(s: Stats, b: Bucket): Stats {
    match b
    case Included => s.(included := s.included + 1)
    case CancelledDocument => s.(cancelled := s.cancelled + 1)
    case DeletedDocument => s.(deleted := s.deleted + 1)
    case Mismatched => s.(currencyMismatch := s.currencyMismatch + 1)
    case NotPaid => s.(unpaid := s.unpaid + 1)
    case ReturnIgnored => s.(returnsIgnored := s.returnsIgnored + 1)
  }

  function CounterOf(s: Stats, b: Bucket): nat {
    match b
    case Included => s.included
    case CancelledDocument => s.cancelled
    case DeletedDocument => s.deleted
    case Mismatched => s.currencyMismatch
    case NotPaid => s.unpaid
    case ReturnIgnored => s.returnsIgnored
  }

  // ----- the whole fold -----

  function EmptyStats(rules: Rules): Stats {
    Stats(0, 0, 0, 0, 0, 0, false, rules.basis, rules.payment, rules.mismatch)
  }

  /** The signed sum and the counters after a sequence of records. */
  function Tally(records: seq<SaleRecord>, currency: string, rules: Rules): (int, Stats) {
    if records == [] then (0, EmptyStats(rules))
    else
      var r := records[|records| - 1];
      var (sum, stats) := Tally(records[..|records| - 1], currency, rules);
      (sum + Contribution(r, currency, rules), Bump(stats, Classify(r, currency, rules)))
  }

  predicate AnyMismatch(records: seq<SaleRecord>, currency: string) {
    exists i :: 0 <= i < |records| && records[i].document.currency != currency
  }

  function TotalOf(records: seq<SaleRecord>, currency: string, rules: Rules)
    : Result<(nat, Stats), Error>
  {
    if rules.mismatch == Fail && AnyMismatch(records, currency) then Err(CurrencyMismatch)
    else
      var (sum, stats) := Tally(records, currency, rules);
      Ok((Max(sum, 0), stats))
  }

  method CalculateTotal(records: seq<SaleRecord>, currency: string, rules: Rules)
    returns (r: Result<(nat, Stats), Error>)
    ensures r == TotalOf(records, currency, rules)
  {
    var stats := EmptyStats(rules);
    var total := 0;
    for i := 0 to |records|
      invariant (total, stats) == Tally(records[..i], currency, rules)
      invariant rules.mismatch == Fail ==> !AnyMismatch(records[..i], currency)
    {
      var record := records[i];
      var d := record.document;
      assert records[..i + 1] == records[..i] + [record];
      TallySnoc(records[..i], record, currency, rules);
      if d.currency != currency {
        stats := stats.(currencyMismatch := stats.currencyMismatch + 1);
        if rules.mismatch == Fail {
          return Err(CurrencyMismatch);
        }
        continue;
      }
      if !rules.includeCancelled && d.status == Cancelled {
        stats := stats.(cancelled := stats.cancelled + 1);
        continue;
      }
      var isDeletedDocument := d.status == Deleted || record.deletedInSource;
      if !rules.includeDeleted && isDeletedDocument {
        stats := stats.(deleted := stats.deleted + 1);
        continue;
      }
      if IsReturn(d) && !rules.subtractReturns {
        stats := stats.(returnsIgnored := stats.returnsIgnored + 1);
        continue;
      }
      if rules.payment == PaidOnly && d.payment != Paid {
        stats := stats.(unpaid := stats.unpaid + 1);
        continue;
      }
      total := total + SignedAmount(d, AmountForRecord(d, rules), rules);
      stats := stats.(included := stats.included + 1);
    }
    assert records[..|records|] == records;
    return Ok((Max(total, 0), stats));
  }

  // ----- what the total means -----

  /** The fold against an independent reading: the sum of the contributions, and for each
      counter the number of records that belong in it. */
  lemma {:induction false} TallyMeaning(records: seq<SaleRecord>, currency: string, rules: Rules, b: Bucket)
    ensures Tally(records, currency, rules).0 == SumBy(records, r => Contribution(r, currency, rules))
    ensures CounterOf(Tally(records, currency, rules).1, b)
         == Count(records, r => Classify(r, currency, rules) == b)
  {
    if records == [] {
    } else {
      TallyMeaning(records[..|records| - 1], currency, rules, b);
    }
  }

  /** Neither the total, nor a counter, nor the decision to fail depends on the order in
      which the database returns the records. */
  lemma TotalOrderIndependent(a: seq<SaleRecord>, b: seq<SaleRecord>, currency: string, rules: Rules)
    requires multiset(a) == multiset(b)
    ensures TotalOf(a, currency, rules) == TotalOf(b, currency, rules)
  {
    AnyMismatchPermutation(a, b, currency);
    AnyMismatchPermutation(b, a, currency);
    TallyPermutation(a, b, currency, rules);
  }

  lemma AnyMismatchPermutation(a: seq<SaleRecord>, b: seq<SaleRecord>, currency: string)
    requires multiset(a) == multiset(b)
    ensures AnyMismatch(a, currency) ==> AnyMismatch(b, currency)
  {
    if AnyMismatch(a, currency) {
      var i :| 0 <= i < |a| && a[i].document.currency != currency;
      assert a[i] in multiset(b);
    }
  }

  lemma TallySnoc(records: seq<SaleRecord>, r: SaleRecord, currency: string, rules: Rules)
    ensures Tally(records + [r], currency, rules)
         == var (sum, stats) := Tally(records, currency, rules);
            (sum + Contribution(r, currency, rules), Bump(stats, Classify(r, currency, rules)))
  {
    assert (records + [r])[..|records|] == records;
  }

  lemma {:induction false} TallyPermutation(a: seq<SaleRecord>, b: seq<SaleRecord>, currency: string, rules: Rules)
    requires multiset(a) == multiset(b)
    ensures Tally(a, currency, rules) == Tally(b, currency, rules)
  {
    SumByPermutation(a, b, r => Contribution(r, currency, rules));
    forall bucket
      ensures CounterOf(Tally(a, currency, rules).1, bucket) == CounterOf(Tally(b, currency, rules).1, bucket)
    {
      TallyMeaning(a, currency, rules, bucket);
      TallyMeaning(b, currency, rules, bucket);
      CountPermutation(a, b, r => Classify(r, currency, rules) == bucket);
    }
    TallyMeaning(a, currency, rules, Included);
    TallyMeaning(b, currency, rules, Included);
    TallySettings(a, currency, rules);
    TallySettings(b, currency, rules);
    SameStats(Tally(a, currency, rules).1, Tally(b, currency, rules).1);
  }

  lemma {:induction false} TallySettings(records: seq<SaleRecord>, currency: string, rules: Rules)
    ensures var s := Tally(records, currency, rules).1;
            !s.noTiers && s.basis == rules.basis && s.payment == rules.payment && s.mismatch == rules.mismatch
  {
    if records == [] {
    } else {
      TallySettings(records[..|records| - 1], currency, rules);
    }
  }

  lemma SameStats(s: Stats, t: Stats)
    requires s.noTiers == t.noTiers && s.basis == t.basis && s.payment == t.payment && s.mismatch == t.mismatch
    requires forall b :: CounterOf(s, b) == CounterOf(t, b)
    ensures s == t
  {
    assert CounterOf(s, Included) == CounterOf(t, Included);
    assert CounterOf(s, CancelledDocument) == CounterOf(t, CancelledDocument);
    assert CounterOf(s, DeletedDocument) == CounterOf(t, DeletedDocument);
    assert CounterOf(s, Mismatched) == CounterOf(t, Mismatched);
    assert CounterOf(s, NotPaid) == CounterOf(t, NotPaid);
    assert CounterOf(s, ReturnIgnored) == CounterOf(t, ReturnIgnored);
  }

  /** Every record is counted exactly once. */
  lemma {:induction false} EveryRecordCounted(records: seq<SaleRecord>, currency: string, rules: Rules)
    ensures var s := Tally(records, currency, rules).1;
            s.included + s.cancelled + s.deleted + s.currencyMismatch + s.unpaid + s.returnsIgnored == |records|
  {
    if records == [] {
    } else {
      EveryRecordCounted(records[..|records| - 1], currency, rules);
    }
  }

  /** The sign discipline both entry points of the ledger enforce on sale documents. */
  predicate AdmittedSale(d: Document) {
    && d.kind == Sale && d.sign == 1 && d.gross >= 0
    && (d.net.Some? ==> d.net.value >= 0)
    && (d.paid.Some? ==> d.paid.value >= 0)
  }

  /** One more sale never lowers the total, one more return or refund never raises it,
      under every rule combination that lets both totals be computed. */
  lemma TotalMonotone(before: seq<SaleRecord>, after: seq<SaleRecord>, r: SaleRecord, currency: string, rules: Rules)
    requires multiset(after) == multiset(before) + multiset{r}
    requires TotalOf(before, currency, rules).Ok? && TotalOf(after, currency, rules).Ok?
    ensures AdmittedSale(r.document)
        ==> TotalOf(before, currency, rules).value.0 <= TotalOf(after, currency, rules).value.0
    ensures IsReturn(r.document)
        ==> TotalOf(after, currency, rules).value.0 <= TotalOf(before, currency, rules).value.0
  {
    TallyPermutation(after, before + [r], currency, rules);
    TallySnoc(before, r, currency, rules);
    AdmittedContribution(r, currency, rules);
  }

  lemma AdmittedContribution(r: SaleRecord, currency: string, rules: Rules)
    ensures AdmittedSale(r.document) ==> Contribution(r, currency, rules) >= 0
    ensures IsReturn(r.document) ==> Contribution(r, currency, rules) <= 0
  {
  }

  // ----- the same on the columns of the documents -----

  /** The record counts: right currency, not cancelled or deleted unless such documents
      are included, not a return unless returns are subtracted, paid if only paid
      documents are wanted. */
  predicate Counts(r: SaleRecord, currency: string, rules: Rules) {
    && r.document.currency == currency
    && (r.document.status == Cancelled ==> rules.includeCancelled)
    && (r.document.status == Deleted || r.deletedInSource ==> rules.includeDeleted)
    && (r.document.kind == Return || r.document.kind == Refund ==> rules.subtractReturns)
    && (rules.payment == PaidOnly ==> r.document.payment == Paid)
  }

  /** What an amount adds: a return or refund is always taken off, any other document goes
      by its sign. */
  function Signed(d: Document, amount: int): int {
    if d.kind == Return || d.kind == Refund then (if amount < 0 then amount else -amount) else amount * d.sign
  }

  /** Under "gross" the total is the sum of the gross column. */
  lemma GrossTotal(records: seq<SaleRecord>, currency: string, rules: Rules)
    requires rules.basis == Gross && rules.payment != PaidAmountOnly
    ensures Tally(records, currency, rules).0
         == SumBy(records, r => if Counts(r, currency, rules) then Signed(r.document, r.document.gross) else 0)
  {
    TallyMeaning(records, currency, rules, Included);
    SumBySame(records, r => Contribution(r, currency, rules),
              r => if Counts(r, currency, rules) then Signed(r.document, r.document.gross) else 0);
  }

  /** Under "net" it is the sum of the net column, a missing net falling back on gross. */
  lemma NetTotal(records: seq<SaleRecord>, currency: string, rules: Rules)
    requires rules.basis == Net && rules.payment != PaidAmountOnly
    ensures Tally(records, currency, rules).0
         == SumBy(records, r => if !Counts(r, currency, rules) then 0
                                else if r.document.net.Some? then Signed(r.document, r.document.net.value)
                                else Signed(r.document, r.document.gross))
  {
    TallyMeaning(records, currency, rules, Included);
    SumBySame(records, r => Contribution(r, currency, rules),
              r => if !Counts(r, currency, rules) then 0
                   else if r.document.net.Some? then Signed(r.document, r.document.net.value)
                   else Signed(r.document, r.document.gross));
  }

  /** Under "paid", and under "paid_amount_only" whatever the basis, it is the sum of the
      paid column, a missing amount counting as 0. */
  lemma PaidTotal(records: seq<SaleRecord>, currency: string, rules: Rules)
    requires rules.basis == PaidBasis || rules.payment == PaidAmountOnly
    ensures Tally(records, currency, rules).0
         == SumBy(records, r => if Counts(r, currency, rules) && r.document.paid.Some?
                                then Signed(r.document, r.document.paid.value) else 0)
  {
    TallyMeaning(records, currency, rules, Included);
    SumBySame(records, r => Contribution(r, currency, rules),
              r => if Counts(r, currency, rules) && r.document.paid.Some?
                   then Signed(r.document, r.document.paid.value) else 0);
  }

  /** The total is that sum, or 0 if it is negative; the calculation fails exactly when the
      rules forbid other currencies and a record has one. */
  lemma TotalIsClampedSum(records: seq<SaleRecord>, currency: string, rules: Rules)
    ensures var t := TotalOf(records, currency, rules);
      && (t.Err? <==> rules.mismatch == Fail && exists r :: r in records && r.document.currency != currency)
      && (t.Err? ==> t.error == CurrencyMismatch)
      && (t.Ok? ==> t.value.0 >= 0 && t.value.1 == Tally(records, currency, rules).1
                    && (Tally(records, currency, rules).0 >= 0 ==> t.value.0 == Tally(records, currency, rules).0)
                    && (Tally(records, currency, rules).0 < 0 ==> t.value.0 == 0))
  {
    if r :| r in records && r.document.currency != currency {
      var i :| 0 <= i < |records| && records[i] == r;
      assert records[i].document.currency != currency;
    }
  }

  // ----- the counters on the columns of the documents -----

  predicate LeftOutAsCancelled(r: SaleRecord, currency: string, rules: Rules) {
    r.document.currency == currency && r.document.status == Cancelled && !rules.includeCancelled
  }

  predicate LeftOutAsDeleted(r: SaleRecord, currency: string, rules: Rules) {
    && r.document.currency == currency && (r.document.status == Deleted || r.deletedInSource) && !rules.includeDeleted
    && !(r.document.status == Cancelled && !rules.includeCancelled)
  }

  predicate LeftOutAsReturn(r: SaleRecord, currency: string, rules: Rules) {
    && r.document.currency == currency && (r.document.kind == Return || r.document.kind == Refund)
    && !rules.subtractReturns
    && !(r.document.status == Cancelled && !rules.includeCancelled)
    && !((r.document.status == Deleted || r.deletedInSource) && !rules.includeDeleted)
  }

  predicate LeftOutAsUnpaid(r: SaleRecord, currency: string, rules: Rules) {
    && r.document.currency == currency && rules.payment == PaidOnly && r.document.payment != Paid
    && !(r.document.status == Cancelled && !rules.includeCancelled)
    && !((r.document.status == Deleted || r.deletedInSource) && !rules.includeDeleted)
    && !((r.document.kind == Return || r.document.kind == Refund) && !rules.subtractReturns)
  }

  lemma BucketsOnColumns(r: SaleRecord, currency: string, rules: Rules)
    ensures match Classify(r, currency, rules)
      case Included => Counts(r, currency, rules)
      case Mismatched => r.document.currency != currency
      case CancelledDocument => LeftOutAsCancelled(r, currency, rules)
      case DeletedDocument => LeftOutAsDeleted(r, currency, rules)
      case ReturnIgnored => LeftOutAsReturn(r, currency, rules)
      case NotPaid => LeftOutAsUnpaid(r, currency, rules)
    ensures Counts(r, currency, rules) ==> Classify(r, currency, rules) == Included
  {
  }

  /** Each counter is the number of records left out for its reason, the first reason in
      the order currency, cancelled, deleted, return, unpaid. */
  lemma CountersOnColumns(records: seq<SaleRecord>, currency: string, rules: Rules)
    ensures var s := Tally(records, currency, rules).1;
      && s.included == Count(records, r => Counts(r, currency, rules))
      && s.currencyMismatch == Count(records, (r: SaleRecord) => r.document.currency != currency)
      && s.cancelled == Count(records, r => LeftOutAsCancelled(r, currency, rules))
      && s.deleted == Count(records, r => LeftOutAsDeleted(r, currency, rules))
      && s.returnsIgnored == Count(records, r => LeftOutAsReturn(r, currency, rules))
      && s.unpaid == Count(records, r => LeftOutAsUnpaid(r, currency, rules))
  {
    CounterOnColumns(records, currency, rules, Included, r => Counts(r, currency, rules));
    CounterOnColumns(records, currency, rules, Mismatched, (r: SaleRecord) => r.document.currency != currency);
    CounterOnColumns(records, currency, rules, CancelledDocument, r => LeftOutAsCancelled(r, currency, rules));
    CounterOnColumns(records, currency, rules, DeletedDocument, r => LeftOutAsDeleted(r, currency, rules));
    CounterOnColumns(records, currency, rules, ReturnIgnored, r => LeftOutAsReturn(r, currency, rules));
    CounterOnColumns(records, currency, rules, NotPaid, r => LeftOutAsUnpaid(r, currency, rules));
  }

  lemma CounterOnColumns(records: seq<SaleRecord>, currency: string, rules: Rules, b: Bucket, p: SaleRecord -> bool)
    requires forall r :: p(r) <==> Classify(r, currency, rules) == b
    ensures CounterOf(Tally(records, currency, rules).1, b) == Count(records, p)
  {
    TallyMeaning(records, currency, rules, b);
    CountSame(records, r => Classify(r, currency, rules) == b, p);
  }

  // ----- the rules on their stored values -----

  predicate Says(stored: Option<RuleValue>, word: RuleWord) { stored == Some(Text(word)) }

  /** The stored values are accepted exactly when each of the three words is absent or
      known, and mean what they say; an absent word means gross, all valid documents and
      exclude, an absent flag means neither cancelled nor deleted, but returns. */
  lemma RulesOnStoredValues(stored: StoredRules)
    ensures MergedRules(stored).Ok? <==>
      && (stored.amountBasis == None || Says(stored.amountBasis, GrossWord) || Says(stored.amountBasis, NetWord)
          || Says(stored.amountBasis, PaidWord))
      && (stored.paymentRule == None || Says(stored.paymentRule, AllValidDocumentsWord)
          || Says(stored.paymentRule, PaidOnlyWord) || Says(stored.paymentRule, PaidAmountOnlyWord))
      && (stored.currencyMismatchPolicy == None || Says(stored.currencyMismatchPolicy, ExcludeWord)
          || Says(stored.currencyMismatchPolicy, FailWord))
    ensures MergedRules(stored).Ok? ==>
      var rules := MergedRules(stored).value;
      && (rules.basis == Net <==> Says(stored.amountBasis, NetWord))
      && (rules.basis == PaidBasis <==> Says(stored.amountBasis, PaidWord))
      && (rules.payment == PaidOnly <==> Says(stored.paymentRule, PaidOnlyWord))
      && (rules.payment == PaidAmountOnly <==> Says(stored.paymentRule, PaidAmountOnlyWord))
      && (rules.mismatch == Fail <==> Says(stored.currencyMismatchPolicy, FailWord))
      && (rules.includeCancelled <==> stored.includeCancelled.Some? && Truthy(stored.includeCancelled.value))
      && (rules.includeDeleted <==> stored.includeDeleted.Some? && Truthy(stored.includeDeleted.value))
      && (rules.subtractReturns <==> stored.subtractReturns.None? || Truthy(stored.subtractReturns.value))
  {
  }

  lemma FalsyValues(v: RuleValue)
    ensures !Truthy(v)
       <==> v == Null || v == Flag(false) || v == Number(0) || v == Text(OtherWord("")) || v == Container(true)
  {
  }
}
