// How a snapshot depends on the records it was computed from, and when it stops agreeing
// with them.
module Freshness {
  import opened Basics
  import opened Models
  import opened Database
  import opened Ladder
  import opened Totals
  import opened Progress

  /** The stored snapshot is what a fresh recomputation gives. */
  ghost predicate UpToDate(books: Books, cache: Cache, c: Id, k: Id) {
    (c, k) in cache.snapshots && Fresh(books, c, k) == Ok(cache.snapshots[(c, k)])
  }

  predicate InPeriod(r: SaleRecord, campaign: Campaign) {
    !r.deleted && campaign.startDate <= r.document.effectiveDate <= campaign.endDate
  }

  /** Two states of the tables that differ at most in sales and in other customers. */
  predicate SameBut(books: Books, now: Books, k: Id) {
    && now.company == books.company && now.campaigns == books.campaigns && now.tiers == books.tiers
    && (LiveCustomer(books.customers, books.company, k) <==> LiveCustomer(now.customers, books.company, k))
  }

  lemma SameFresh(books: Books, now: Books, c: Id, k: Id)
    requires SameBut(books, now, k)
    requires c in books.campaigns ==>
      Window(books.sales, books.campaigns[c], k) == Window(now.sales, books.campaigns[c], k)
    ensures Fresh(books, c, k) == Fresh(now, c, k)
  {
  }

  // ----- when two sets of records give the same snapshot -----

  /** As many records in each bucket, and the same clamped sum. */
  ghost predicate SameWeight(a: seq<SaleRecord>, b: seq<SaleRecord>, currency: string, rules: Rules) {
    && Max(Tally(a, currency, rules).0, 0) == Max(Tally(b, currency, rules).0, 0)
    && forall bucket ::
      CounterOf(Tally(a, currency, rules).1, bucket) == CounterOf(Tally(b, currency, rules).1, bucket)
  }

  lemma {:induction false} MismatchIsCounted(records: seq<SaleRecord>, currency: string, rules: Rules)
    ensures AnyMismatch(records, currency) <==> CounterOf(Tally(records, currency, rules).1, Mismatched) > 0
  {
    if records == [] {
    } else {
      var front, last := records[..|records| - 1], records[|records| - 1];
      assert records == front + [last];
      MismatchIsCounted(front, currency, rules);
      MismatchSnoc(front, last, currency);
    }
  }

  lemma MismatchSnoc(front: seq<SaleRecord>, r: SaleRecord, currency: string)
    ensures AnyMismatch(front + [r], currency) <==> AnyMismatch(front, currency) || r.document.currency != currency
  {
    var all := front + [r];
    assert all[|front|] == r;
    if AnyMismatch(front, currency) {
      var i :| 0 <= i < |front| && front[i].document.currency != currency;
      assert all[i] == front[i];
    }
  }

  lemma SameTotalIff(a: seq<SaleRecord>, b: seq<SaleRecord>, currency: string, rules: Rules)
    requires TotalOf(a, currency, rules).Ok?
    ensures TotalOf(b, currency, rules) == TotalOf(a, currency, rules) <==> SameWeight(a, b, currency, rules)
  {
    MismatchIsCounted(a, currency, rules);
    MismatchIsCounted(b, currency, rules);
    TallySettings(a, currency, rules);
    TallySettings(b, currency, rules);
    if SameWeight(a, b, currency, rules) {
      assert CounterOf(Tally(a, currency, rules).1, Mismatched) == CounterOf(Tally(b, currency, rules).1, Mismatched);
      SameStats(Tally(a, currency, rules).1, Tally(b, currency, rules).1);
    }
  }

  lemma SnapshotsDiffer(a: nat, s: Stats, b: nat, t: Stats, currency: string, ladder: seq<Rung>)
    requires IsLadder(ladder) && (a, s) != (b, t) && !s.noTiers && !t.noTiers
    ensures SnapshotOf(a, currency, s, Place(a, ladder)) != SnapshotOf(b, currency, t, Place(b, ladder))
  {
    if a == b {
      var none := ladder == [];
      assert s == s.(noTiers := none).(noTiers := false) && t == t.(noTiers := none).(noTiers := false);
    }
  }

  lemma SameRecomputationIff(campaign: Campaign, ladder: seq<Rung>, a: seq<SaleRecord>, b: seq<SaleRecord>)
    requires IsLadder(ladder) && Recompute(campaign, ladder, a).Ok?
    ensures Recompute(campaign, ladder, b) == Recompute(campaign, ladder, a)
       <==> SameWeight(a, b, campaign.currency, MergedRules(campaign.rules).value)
  {
    var rules := MergedRules(campaign.rules).value;
    SameTotalIff(a, b, campaign.currency, rules);
    var was, now := TotalOf(a, campaign.currency, rules), TotalOf(b, campaign.currency, rules);
    TallySettings(a, campaign.currency, rules);
    TallySettings(b, campaign.currency, rules);
    if was != now && now.Ok? {
      SnapshotsDiffer(was.value.0, was.value.1, now.value.0, now.value.1, campaign.currency, ladder);
    }
  }

  /** The records of two windows weigh the same under a campaign whose rules are known. */
  ghost predicate WeighsSame(campaign: Campaign, a: map<SourceKey, SaleRecord>, b: map<SourceKey, SaleRecord>) {
    var rules := MergedRules(campaign.rules);
    rules.Ok? && SameWeight(RowsOf(a), RowsOf(b), campaign.currency, rules.value)
  }

  /** However the records of a customer have changed: a recomputation gives the same if
      and only if every bucket count and the clamped sum of the window are unchanged. */
  lemma SameFreshIff(books: Books, now: Books, c: Id, k: Id)
    requires SameBut(books, now, k) && Fresh(books, c, k).Ok?
    ensures Fresh(now, c, k) == Fresh(books, c, k)
       <==> WeighsSame(books.campaigns[c], Window(books.sales, books.campaigns[c], k),
                       Window(now.sales, books.campaigns[c], k))
  {
    var campaign := books.campaigns[c];
    SameRecomputationIff(campaign, LadderOf(books.tiers, c), RowsOf(Window(books.sales, campaign, k)),
                         RowsOf(Window(now.sales, campaign, k)));
  }

  // ----- a snapshot counts its records -----

  lemma {:induction false} RowsCount(m: map<SourceKey, SaleRecord>)
    ensures |RowsOf(m)| == |m|
    decreases m.Keys
  {
    if m == map[] {
    } else {
      var j := AnyKey(m);
      RowsCount(m - {j});
      assert (m - {j}).Keys == m.Keys - {j};
    }
  }

  function RecordCount(s: Stats): nat {
    s.included + s.cancelled + s.deleted + s.currencyMismatch + s.unpaid + s.returnsIgnored
  }

  lemma FreshCountsRecords(books: Books, c: Id, k: Id)
    requires Fresh(books, c, k).Ok?
    ensures RecordCount(Fresh(books, c, k).value.stats) == |Window(books.sales, books.campaigns[c], k)|
  {
    var window := Window(books.sales, books.campaigns[c], k);
    RowsCount(window);
    EveryRecordCounted(RowsOf(window), books.campaigns[c].currency, MergedRules(books.campaigns[c].rules).value);
  }

  ghost predicate PartOf(a: map<SourceKey, SaleRecord>, b: map<SourceKey, SaleRecord>) {
    forall key :: key in a ==> key in b && a[key] == b[key]
  }

  lemma PartOfSameSize(a: map<SourceKey, SaleRecord>, b: map<SourceKey, SaleRecord>)
    requires PartOf(a, b) && |a| == |b|
    ensures a == b
  {
    assert b.Keys == a.Keys + (b.Keys - a.Keys);
  }

  /** Records only left, or only came: then a recomputation gives the same if and only if
      none did. */
  lemma FewerOrMoreIff(books: Books, now: Books, c: Id, k: Id)
    requires SameBut(books, now, k) && Fresh(books, c, k).Ok?
    requires var a, b := Window(books.sales, books.campaigns[c], k), Window(now.sales, books.campaigns[c], k);
             PartOf(b, a) || PartOf(a, b)
    ensures Fresh(now, c, k) == Fresh(books, c, k)
       <==> Window(now.sales, books.campaigns[c], k) == Window(books.sales, books.campaigns[c], k)
  {
    var a, b := Window(books.sales, books.campaigns[c], k), Window(now.sales, books.campaigns[c], k);
    if a == b {
      SameFresh(books, now, c, k);
    } else if Fresh(now, c, k) == Fresh(books, c, k) {
      FreshCountsRecords(books, c, k);
      FreshCountsRecords(now, c, k);
      if PartOf(a, b) {
        PartOfSameSize(a, b);
      } else {
        PartOfSameSize(b, a);
      }
    }
  }

  // ----- a record replaced -----

  /** Two records end in the same bucket, and with the rest of the sum give the same
      clamped total. */
  predicate SameEffect(prior: SaleRecord, later: SaleRecord, rest: int, currency: string, rules: Rules) {
    && Classify(prior, currency, rules) == Classify(later, currency, rules)
    && Max(rest + Contribution(prior, currency, rules), 0) == Max(rest + Contribution(later, currency, rules), 0)
  }

  /** One record of the window is rewritten in place: a recomputation gives the same if
      and only if old and new record have the same effect. */
  lemma ReplacedIff(books: Books, now: Books, c: Id, k: Id, key: SourceKey)
    requires SameBut(books, now, k) && Fresh(books, c, k).Ok?
    requires var a, b := Window(books.sales, books.campaigns[c], k), Window(now.sales, books.campaigns[c], k);
             key in a && key in b && a - {key} == b - {key}
    ensures var campaign := books.campaigns[c];
      var rules := MergedRules(campaign.rules).value;
      var rest := Tally(RowsOf(Window(books.sales, campaign, k) - {key}), campaign.currency, rules).0;
      Fresh(now, c, k) == Fresh(books, c, k)
      <==> SameEffect(books.sales[key], now.sales[key], rest, campaign.currency, rules)
  {
    var campaign := books.campaigns[c];
    var a, b := Window(books.sales, campaign, k), Window(now.sales, campaign, k);
    RowsRemove(a, key);
    RowsRemove(b, key);
    ReplacedWeighsSameIff(RowsOf(a), RowsOf(b), RowsOf(a - {key}), books.sales[key], now.sales[key],
                          campaign.currency, MergedRules(campaign.rules).value);
    SameFreshIff(books, now, c, k);
  }

  lemma ReplacedWeighsSameIff(a: seq<SaleRecord>, b: seq<SaleRecord>, rest: seq<SaleRecord>, prior: SaleRecord,
                              later: SaleRecord, currency: string, rules: Rules)
    requires multiset(a) == multiset(rest) + multiset{prior} && multiset(b) == multiset(rest) + multiset{later}
    ensures SameWeight(a, b, currency, rules)
       <==> SameEffect(prior, later, Tally(rest, currency, rules).0, currency, rules)
  {
    TallyPermutation(a, rest + [prior], currency, rules);
    TallyPermutation(b, rest + [later], currency, rules);
    TallySnoc(rest, prior, currency, rules);
    TallySnoc(rest, later, currency, rules);
    BumpsDiffer(Tally(rest, currency, rules).1, Classify(prior, currency, rules), Classify(later, currency, rules));
  }

  lemma BumpsDiffer(s: Stats, a: Bucket, b: Bucket)
    ensures (forall bucket :: CounterOf(Bump(s, a), bucket) == CounterOf(Bump(s, b), bucket)) <==> a == b
  {
    assert CounterOf(Bump(s, a), a) == CounterOf(s, a) + 1;
    assert a != b ==> CounterOf(Bump(s, b), a) == CounterOf(s, a);
  }

  // ----- no records at all -----

  /** The customers with a record in the campaign's period. */
  function WindowCustomers(sales: map<SourceKey, SaleRecord>, campaign: Campaign): set<Id> {
    set key | key in sales && InPeriod(sales[key], campaign) :: sales[key].customer
  }

  lemma WindowCustomersOnFields(sales: map<SourceKey, SaleRecord>, campaign: Campaign, k: Id)
    ensures k in WindowCustomers(sales, campaign) <==>
      exists key :: key in sales && sales[key].customer == k && !sales[key].deleted
                    && campaign.startDate <= sales[key].document.effectiveDate <= campaign.endDate
  {
  }

  /** The stored row is the blank one: a live customer with nothing bought, at the foot of
      the ladder. */
  ghost predicate StoredBlank(books: Books, cache: Cache, c: Id, k: Id) {
    && (c, k) in cache.snapshots
    && LiveCampaign(books.campaigns, c) && LiveCustomer(books.customers, books.company, k)
    && var campaign := books.campaigns[c];
       var rules := MergedRules(campaign.rules);
       && rules.Ok?
       && cache.snapshots[(c, k)]
          == SnapshotOf(0, campaign.currency, EmptyStats(rules.value), Place(0, LadderOf(books.tiers, c)))
  }

  lemma UpToDateWithoutRecordsIff(books: Books, cache: Cache, c: Id, k: Id)
    requires c in books.campaigns && k !in WindowCustomers(books.sales, books.campaigns[c])
    ensures UpToDate(books, cache, c, k) <==> StoredBlank(books, cache, c, k)
  {
    var window := Window(books.sales, books.campaigns[c], k);
    assert window == map[];
    assert RowsOf(window) == [];
  }
}
