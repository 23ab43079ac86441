// The tables behind a request, and what its two ordered or filtered queries return.
module Database {
  import opened Basics
  import opened Models
  import opened Ladder
  import opened Decimals

  /** One table per field, as seen by the requests of one company. */
  class Session {
    const company: Id
    var campaigns: map<Id, Campaign>
    var tiers: map<Id, GiftTier>
    var customers: map<Id, Customer>
    var refs: map<string, ExternalRef>
    var sales: map<SourceKey, SaleRecord>
    var progress: map<(Id, Id), Snapshot>
    var progressLog: seq<ProgressEvent>
    var claims: map<Id, RewardClaim>
    var claimLog: seq<ClaimEvent>
    var batches: map<Id, ImportBatch>
    // import_committed events, by batch
    var importLog: seq<Id>
    // The next customer id; it stands for the random identifiers the code draws.
    var nextCustomer: Id

    constructor (company: Id)
      ensures this.company == company
      ensures campaigns == map[] && tiers == map[] && customers == map[] && refs == map[]
      ensures sales == map[] && progress == map[] && progressLog == []
      ensures claims == map[] && claimLog == [] && batches == map[] && importLog == [] && nextCustomer == 0
    {
      this.company := company;
      campaigns, tiers, customers, refs := map[], map[], map[], map[];
      sales, progress, progressLog, claims, claimLog := map[], map[], [], map[], [];
      batches, importLog, nextCustomer := map[], [], 0;
    }
  }

  // ----- domain events -----

  /** The part of a snapshot a recalculation event carries. */
  datatype Brief = Brief(
    total: nat, currentTier: Option<Id>, nextTier: Option<Id>, amountLeft: nat, basisPoints: nat)

  datatype ProgressEvent =
    | Recalculated(campaign: Id, customer: Id, before: Option<Brief>, after: Brief)
    | TierReached(campaign: Id, customer: Id, tier: Id, total: nat)
    | TierChanged(campaign: Id, customer: Id, previous: Option<Id>, current: Option<Id>, total: nat)

  /** reward_claim_created, _approved and so on; the status names the event. */
  datatype ClaimEvent = ClaimEvent(claim: Id, status: ClaimStatus)

  // ----- the ladder query -----

  ghost function ActiveIds(tiers: map<Id, GiftTier>, campaign: Id): set<Id> {
    set id | id in tiers && tiers[id].campaign == campaign && tiers[id].active && !tiers[id].deleted
  }

  ghost predicate AmountsFit(tiers: map<Id, GiftTier>) {
    forall id :: id in tiers ==> 0 < tiers[id].required < INT64_LIMIT
  }

  /** The active tiers of a campaign, each once, ordered by amount. */
  ghost predicate IsActiveLadder(tiers: map<Id, GiftTier>, campaign: Id, s: seq<Rung>) {
    && IsLadder(s)
    && DistinctIds(s)
    && (forall r :: r in s <==> r.id in ActiveIds(tiers, campaign) && r.required == tiers[r.id].required)
  }

  ghost predicate DistinctActiveAmounts(tiers: map<Id, GiftTier>, campaign: Id) {
    forall a, b :: a in ActiveIds(tiers, campaign) && b in ActiveIds(tiers, campaign) && a != b
      ==> tiers[a].required != tiers[b].required
  }

  ghost predicate DistinctIds(s: seq<Rung>) {
    forall i, j :: 0 <= i < j < |s| ==> s[i].id != s[j].id
  }

  function Insert(s: seq<Rung>, r: Rung): (t: seq<Rung>) {
    if s == [] || r.required <= s[0].required then [r] + s else [s[0]] + Insert(s[1..], r)
  }

  lemma {:induction false} InsertOrdered(s: seq<Rung>, r: Rung)
    requires IsLadder(s) && 0 < r.required < INT64_LIMIT
    ensures IsLadder(Insert(s, r))
    ensures forall x :: x in Insert(s, r) <==> x in s || x == r
  {
    var t := Insert(s, r);
    if s == [] || r.required <= s[0].required {
      assert t == [r] + s;
    } else {
      InsertOrdered(s[1..], r);
      assert t == [s[0]] + Insert(s[1..], r);
      assert s == [s[0]] + s[1..];
      forall i | 1 <= i < |t| ensures t[i].required >= s[0].required {
        assert t[i] in Insert(s[1..], r);
      }
    }
  }

  lemma {:induction false} InsertDistinct(s: seq<Rung>, r: Rung)
    requires DistinctIds(s)
    requires forall x :: x in s ==> x.id != r.id
    requires IsLadder(s) && 0 < r.required < INT64_LIMIT
    ensures DistinctIds(Insert(s, r))
  {
    var t := Insert(s, r);
    if s == [] || r.required <= s[0].required {
      assert t == [r] + s;
    } else {
      InsertDistinct(s[1..], r);
      InsertOrdered(s[1..], r);
      assert t == [s[0]] + Insert(s[1..], r);
      forall i | 1 <= i < |t| ensures t[i].id != s[0].id {
        assert t[i] in Insert(s[1..], r);
        assert t[i] == r || t[i] in s[1..];
      }
    }
  }

  /** select ... order_by(required_amount_minor); equal amounts may come in any order */
  method ActiveTiers(session: Session, campaign: Id) returns (s: seq<Rung>)
    requires AmountsFit(session.tiers)
    ensures IsActiveLadder(session.tiers, campaign, s)
  {
    var tiers := session.tiers;
    var rest := set id | id in tiers && tiers[id].campaign == campaign && tiers[id].active && !tiers[id].deleted;
    s := [];
    while rest != {}
      invariant rest <= ActiveIds(tiers, campaign)
      invariant IsLadder(s) && DistinctIds(s)
      invariant forall r :: r in s <==>
        r.id in ActiveIds(tiers, campaign) - rest && r.required == tiers[r.id].required
    {
      var id :| id in rest;
      var rung := Rung(id, tiers[id].required);
      InsertOrdered(s, rung);
      InsertDistinct(s, rung);
      s, rest := Insert(s, rung), rest - {id};
    }
  }

  /** With distinct amounts the ordered query has exactly one answer. */
  lemma LadderUnique(tiers: map<Id, GiftTier>, campaign: Id, a: seq<Rung>, b: seq<Rung>)
    requires IsActiveLadder(tiers, campaign, a) && IsActiveLadder(tiers, campaign, b)
    requires DistinctActiveAmounts(tiers, campaign)
    ensures a == b
  {
    StrictlyOrdered(tiers, campaign, a);
    StrictlyOrdered(tiers, campaign, b);
    SameElements(a, b);
  }

  ghost predicate Ascending(s: seq<Rung>) {
    forall i, j :: 0 <= i < j < |s| ==> s[i].required < s[j].required
  }

  lemma StrictlyOrdered(tiers: map<Id, GiftTier>, campaign: Id, s: seq<Rung>)
    requires IsActiveLadder(tiers, campaign, s) && DistinctActiveAmounts(tiers, campaign)
    ensures Ascending(s)
  {
  }

  lemma SomeElement(s: seq<Rung>)
    ensures s != [] ==> exists r :: r in s
  {
    if s != [] {
      assert s[0] in s;
    }
  }

  lemma {:induction false} SameElements(a: seq<Rung>, b: seq<Rung>)
    requires Ascending(a) && Ascending(b)
    requires forall r :: r in a <==> r in b
    ensures a == b
  {
    SomeElement(b);
    if a == [] {
    } else {
      assert a[0] in b;
      assert b[0] in a;
      assert a[0] == b[0];
      forall r ensures r in a[1..] <==> r in b[1..] {
        assert r in a[1..] <==> r in a && r != a[0];
        assert r in b[1..] <==> r in b && r != b[0];
      }
      SameElements(a[1..], b[1..]);
      assert a == [a[0]] + a[1..] && b == [b[0]] + b[1..];
    }
  }

  /** The ladder of a campaign: what the query returns. */
  ghost function LadderOf(tiers: map<Id, GiftTier>, campaign: Id): (s: seq<Rung>)
    ensures IsLadder(s)
  {
    if exists s :: IsActiveLadder(tiers, campaign, s)
    then var s :| IsActiveLadder(tiers, campaign, s); s
    else []
  }

  lemma {:induction false} LadderExists(tiers: map<Id, GiftTier>, campaign: Id, rest: set<Id>) returns (s: seq<Rung>)
    requires AmountsFit(tiers) && rest <= ActiveIds(tiers, campaign)
    ensures IsLadder(s) && DistinctIds(s)
    ensures forall r :: r in s <==> r.id in rest && r.required == tiers[r.id].required
  {
    if rest == {} {
      s := [];
    } else {
      var id :| id in rest;
      var front := LadderExists(tiers, campaign, rest - {id});
      var rung := Rung(id, tiers[id].required);
      InsertOrdered(front, rung);
      InsertDistinct(front, rung);
      s := Insert(front, rung);
    }
  }

  /** The ladder on the columns of the tiers: the active, undeleted tiers of the campaign,
      each once, from the smallest amount upwards. */
  lemma LadderOnFields(tiers: map<Id, GiftTier>, campaign: Id)
    requires AmountsFit(tiers)
    ensures var s := LadderOf(tiers, campaign);
      && (forall r :: r in s <==>
            && r.id in tiers && tiers[r.id].campaign == campaign && tiers[r.id].active && !tiers[r.id].deleted
            && r.required == tiers[r.id].required)
      && (forall i, j :: 0 <= i < j < |s| ==> s[i].id != s[j].id && s[i].required <= s[j].required)
  {
    var s := LadderExists(tiers, campaign, ActiveIds(tiers, campaign));
    assert IsActiveLadder(tiers, campaign, s);
  }

  // ----- the sales query -----

  /** A customer's undeleted records inside a campaign's period. */
  function Window(sales: map<SourceKey, SaleRecord>, campaign: Campaign, customer: Id)
    : map<SourceKey, SaleRecord>
  {
    map key | key in sales
              && sales[key].customer == customer && !sales[key].deleted
              && campaign.startDate <= sales[key].document.effectiveDate <= campaign.endDate
            :: sales[key]
  }

  /** The records that count towards a customer's total: its own, not deleted, with an
      effective date from the first to the last day of the campaign. */
  lemma WindowOnFields(sales: map<SourceKey, SaleRecord>, campaign: Campaign, customer: Id, key: SourceKey)
    ensures key in Window(sales, campaign, customer) <==>
      && key in sales && sales[key].customer == customer && !sales[key].deleted
      && sales[key].document.effectiveDate >= campaign.startDate
      && sales[key].document.effectiveDate <= campaign.endDate
    ensures key in Window(sales, campaign, customer) ==> Window(sales, campaign, customer)[key] == sales[key]
  {
  }

  ghost function AnyKey(m: map<SourceKey, SaleRecord>): SourceKey
    requires m != map[]
    ensures AnyKey(m) in m
  {
    var k :| k in m;
    k
  }

  /** The rows of a table in some order. */
  ghost function RowsOf(m: map<SourceKey, SaleRecord>): seq<SaleRecord> {
    if m == map[] then [] else RowsOf(m - {AnyKey(m)}) + [m[AnyKey(m)]]
  }

  lemma RowsUnfold(m: map<SourceKey, SaleRecord>, j: SourceKey)
    requires m != map[] && j == AnyKey(m)
    ensures multiset(RowsOf(m)) == multiset(RowsOf(m - {j})) + multiset{m[j]}
  {
  }

  lemma RemoveTwo(m: map<SourceKey, SaleRecord>, j: SourceKey, k: SourceKey)
    ensures m - {j} - {k} == m - {k} - {j}
  {
  }

  lemma {:induction false} RowsRemove(m: map<SourceKey, SaleRecord>, k: SourceKey)
    requires k in m
    ensures multiset(RowsOf(m)) == multiset(RowsOf(m - {k})) + multiset{m[k]}
    decreases m.Keys
  {
    var j := AnyKey(m);
    RowsUnfold(m, j);
    if j == k {
    } else {
      RowsRemove(m - {j}, k);
      RowsRemove(m - {k}, j);
      RemoveTwo(m, j, k);
      SwapLast(multiset(RowsOf(m)), multiset(RowsOf(m - {j})), multiset(RowsOf(m - {k})),
               multiset(RowsOf(m - {j} - {k})), m[j], m[k]);
    }
  }

  lemma SwapLast(all: multiset<SaleRecord>, withoutJ: multiset<SaleRecord>, withoutK: multiset<SaleRecord>,
                 rest: multiset<SaleRecord>, j: SaleRecord, k: SaleRecord)
    requires all == withoutJ + multiset{j}
    requires withoutJ == rest + multiset{k} && withoutK == rest + multiset{j}
    ensures all == withoutK + multiset{k}
  {
  }

  /** The records come in whatever order the database likes. */
  method SaleRecordsForCustomer(session: Session, campaign: Campaign, customer: Id)
    returns (records: seq<SaleRecord>)
    ensures multiset(records) == multiset(RowsOf(Window(session.sales, campaign, customer)))
  {
    var rest := Window(session.sales, campaign, customer);
    ghost var all := rest;
    records := [];
    while rest != map[]
      invariant multiset(records) + multiset(RowsOf(rest)) == multiset(RowsOf(all))
      decreases |rest|
    {
      var k :| k in rest;
      RowsRemove(rest, k);
      assert |rest - {k}| < |rest| by {
        assert (rest - {k}).Keys == rest.Keys - {k};
      }
      records, rest := records + [rest[k]], rest - {k};
    }
  }
}
