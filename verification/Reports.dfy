// Liability reports: counts over snapshots and claims, and how they agree with the ladder.
module Reports {
  import opened Basics
  import opened Models
  import opened Database
  import opened Ladder
  import opened Progress
  import opened Freshness
  import Claims

  /** None sees every customer; a sales manager sees the assigned ones. */
  type Viewer = Option<set<Id>>

  predicate Sees(viewer: Viewer, k: Id) { viewer.None? || k in viewer.value }

  // ----- what is counted -----

  /** The snapshots of a campaign that the viewer sees, by customer. */
  function SnapshotsOf(progress: map<(Id, Id), Snapshot>, c: Id, viewer: Viewer): map<Id, Snapshot> {
    map key | key in progress && key.0 == c && Sees(viewer, key.1) :: key.1 := progress[key]
  }

  function Holding(s: map<Id, Snapshot>, tier: Option<Id>): set<Id> {
    set k | k in s && s[k].currentTier == tier
  }

  function Qualified(s: map<Id, Snapshot>, required: int): set<Id> {
    set k | k in s && s[k].total >= required
  }

  /** The claims of a campaign that the viewer sees. */
  function ClaimsOf(claims: map<Id, RewardClaim>, c: Id, viewer: Viewer): map<Id, RewardClaim> {
    map i | i in claims && claims[i].campaign == c && Sees(viewer, claims[i].customer) :: claims[i]
  }

  function Group(claims: map<Id, RewardClaim>, t: Id, status: ClaimStatus): set<Id> {
    set i | i in claims && claims[i].tier == t && claims[i].status == status
  }

  function WithStatus(claims: map<Id, RewardClaim>, status: ClaimStatus): set<Id> {
    set i | i in claims && claims[i].status == status
  }

  function AtTier(claims: map<Id, RewardClaim>, t: Id): set<Id> {
    set i | i in claims && claims[i].tier == t
  }

  datatype LiabilityLine = LiabilityLine(
    tier: Id, required: int, qualified: nat, current: nat, pending: nat, approved: nat, fulfilled: nat,
    stock: Option<int>, reservedQuantity: int, fulfilledQuantity: int, availableQuantity: Option<int>)

  datatype Liability = Liability(
    totalQualified: nat, totalClaims: nat, pending: nat, approved: nat, fulfilled: nat, lines: seq<LiabilityLine>)

  datatype OverviewLine = OverviewLine(tier: Id, required: int, current: nat, claims: nat, fulfilled: nat)

  datatype Overview = Overview(
    customers: nat, reachedAny: nat, reachedHighest: nat, activeClaims: nat, fulfilledClaims: nat,
    lines: seq<OverviewLine>)

  /** The rungs are rows of the tier table. */
  predicate OnTable(tiers: map<Id, GiftTier>, ladder: seq<Rung>) {
    forall i :: 0 <= i < |ladder| ==> ladder[i].id in tiers
  }

  function LiabilityLineOf(s: map<Id, Snapshot>, claims: map<Id, RewardClaim>, tiers: map<Id, GiftTier>, r: Rung)
    : LiabilityLine
    requires r.id in tiers
  {
    var tier := tiers[r.id];
    LiabilityLine(r.id, r.required, |Qualified(s, r.required)|, |Holding(s, Some(r.id))|,
                  |Group(claims, r.id, Pending)|, |Group(claims, r.id, Approved)|, |Group(claims, r.id, Fulfilled)|,
                  tier.stock, tier.reserved, tier.fulfilled, tier.Available())
  }

  /** The report as cardinalities of sets of customers and claims. */
  function LiabilityOf(s: map<Id, Snapshot>, claims: map<Id, RewardClaim>, tiers: map<Id, GiftTier>, ladder: seq<Rung>)
    : Liability
    requires OnTable(tiers, ladder)
  {
    Liability(
      if ladder == [] then 0 else |Qualified(s, ladder[0].required)|,
      |claims|, |WithStatus(claims, Pending)|, |WithStatus(claims, Approved)|, |WithStatus(claims, Fulfilled)|,
      seq(|ladder|, i requires 0 <= i < |ladder| => LiabilityLineOf(s, claims, tiers, ladder[i])))
  }

  function OverviewLineOf(s: map<Id, Snapshot>, claims: map<Id, RewardClaim>, r: Rung): OverviewLine {
    OverviewLine(r.id, r.required, |Holding(s, Some(r.id))|, |AtTier(claims, r.id)|, |Group(claims, r.id, Fulfilled)|)
  }

  function OverviewOf(s: map<Id, Snapshot>, claims: map<Id, RewardClaim>, ladder: seq<Rung>): Overview {
    Overview(
      |s|, |s.Keys - Holding(s, None)|,
      if ladder == [] then 0 else |Holding(s, Some(ladder[|ladder| - 1].id))|,
      |WithStatus(claims, Pending)| + |WithStatus(claims, Approved)|, |WithStatus(claims, Fulfilled)|,
      seq(|ladder|, i requires 0 <= i < |ladder| => OverviewLineOf(s, claims, ladder[i])))
  }

  // ----- grouping -----

  datatype ClaimRow = ClaimRow(tier: Id, status: ClaimStatus, count: nat)

  /** group_by(tier, status): every group that is not empty, once. */
  ghost predicate Grouped(claims: map<Id, RewardClaim>, rows: seq<ClaimRow>) {
    && (forall i :: 0 <= i < |rows| ==> rows[i].count == |Group(claims, rows[i].tier, rows[i].status)|)
    && (forall i, j :: 0 <= i < j < |rows| ==> rows[i].tier != rows[j].tier || rows[i].status != rows[j].status)
    && (forall k :: k in claims ==>
          exists i :: 0 <= i < |rows| && rows[i].tier == claims[k].tier && rows[i].status == claims[k].status)
  }

  /** The claims in the groups of some rows. */
  ghost function Covered(claims: map<Id, RewardClaim>, rows: seq<ClaimRow>): set<Id> {
    set k | k in claims && InRows(rows, claims[k].tier, claims[k].status)
  }

  predicate InRows(rows: seq<ClaimRow>, tier: Id, status: ClaimStatus) {
    exists i :: 0 <= i < |rows| && rows[i].tier == tier && rows[i].status == status
  }

  type Counts = map<Id, map<ClaimStatus, nat>>

  function Count2(counts: Counts, t: Id, status: ClaimStatus): nat {
    if t in counts && status in counts[t] then counts[t][status] else 0
  }

  function Count1(totals: map<ClaimStatus, nat>, status: ClaimStatus): nat {
    if status in totals then totals[status] else 0
  }

  /** The nested dictionary counts every group, the flat one every status. */
  ghost predicate Counting(claims: map<Id, RewardClaim>, counts: Counts) {
    forall t, status :: Count2(counts, t, status) == |Group(claims, t, status)|
  }

  ghost predicate Totalling(claims: map<Id, RewardClaim>, totals: map<ClaimStatus, nat>) {
    forall status :: Count1(totals, status) == |WithStatus(claims, status)|
  }

  method GroupClaims(claims: map<Id, RewardClaim>) returns (rows: seq<ClaimRow>)
    ensures Grouped(claims, rows)
  {
    var rest := set k | k in claims :: (claims[k].tier, claims[k].status);
    rows := [];
    while rest != {}
      invariant forall i :: 0 <= i < |rows| ==>
        rows[i].count == |Group(claims, rows[i].tier, rows[i].status)| && (rows[i].tier, rows[i].status) !in rest
      invariant forall i, j :: 0 <= i < j < |rows| ==> rows[i].tier != rows[j].tier || rows[i].status != rows[j].status
      invariant forall k :: k in claims ==>
        (claims[k].tier, claims[k].status) in rest || InRows(rows, claims[k].tier, claims[k].status)
    {
      var g :| g in rest;
      ghost var before := rows;
      rows := rows + [ClaimRow(g.0, g.1, |Group(claims, g.0, g.1)|)];
      rest := rest - {g};
      assert rows[|before|].tier == g.0 && rows[|before|].status == g.1;
      forall t, status | InRows(before, t, status) ensures InRows(rows, t, status) {
        var i :| 0 <= i < |before| && before[i].tier == t && before[i].status == status;
        assert rows[i] == before[i];
      }
    }
    forall k | k in claims
      ensures exists i :: 0 <= i < |rows| && rows[i].tier == claims[k].tier && rows[i].status == claims[k].status
    {
      assert InRows(rows, claims[k].tier, claims[k].status);
    }
  }

  /** What the two dictionaries hold after some rows. */
  ghost predicate CountsSoFar(claims: map<Id, RewardClaim>, rows: seq<ClaimRow>, counts: Counts) {
    forall t, status :: Count2(counts, t, status) == if InRows(rows, t, status) then |Group(claims, t, status)| else 0
  }

  ghost predicate TotalsSoFar(claims: map<Id, RewardClaim>, rows: seq<ClaimRow>, totals: map<ClaimStatus, nat>) {
    forall status :: Count1(totals, status) == |Covered(claims, rows) * WithStatus(claims, status)|
  }

  lemma InRowsSnoc(rows: seq<ClaimRow>, row: ClaimRow, t: Id, status: ClaimStatus)
    ensures InRows(rows + [row], t, status) <==> InRows(rows, t, status) || (row.tier == t && row.status == status)
  {
    var all := rows + [row];
    assert all[|rows|] == row;
    if InRows(rows, t, status) {
      var i :| 0 <= i < |rows| && rows[i].tier == t && rows[i].status == status;
      assert all[i] == rows[i];
    }
  }

  /** counts.setdefault(tier, {})[status] = count */
  function WithCount(counts: Counts, row: ClaimRow): Counts {
    counts[row.tier := (if row.tier in counts then counts[row.tier] else map[])[row.status := row.count]]
  }

  lemma CountOne(claims: map<Id, RewardClaim>, rows: seq<ClaimRow>, row: ClaimRow, counts: Counts)
    requires CountsSoFar(claims, rows, counts) && row.count == |Group(claims, row.tier, row.status)|
    ensures CountsSoFar(claims, rows + [row], WithCount(counts, row))
  {
    var after := WithCount(counts, row);
    forall t, status
      ensures Count2(after, t, status) == if InRows(rows + [row], t, status) then |Group(claims, t, status)| else 0
    {
      InRowsSnoc(rows, row, t, status);
      assert Count2(after, t, status)
          == if row.tier == t && row.status == status then row.count else Count2(counts, t, status);
    }
  }

  lemma CoveredSnoc(claims: map<Id, RewardClaim>, rows: seq<ClaimRow>, row: ClaimRow)
    requires !InRows(rows, row.tier, row.status)
    ensures Covered(claims, rows + [row]) == Covered(claims, rows) + Group(claims, row.tier, row.status)
    ensures Covered(claims, rows) !! Group(claims, row.tier, row.status)
  {
    forall k | k in claims
      ensures k in Covered(claims, rows + [row])
         <==> k in Covered(claims, rows) || k in Group(claims, row.tier, row.status)
    {
      InRowsSnoc(rows, row, claims[k].tier, claims[k].status);
    }
  }

  lemma TotalOne(claims: map<Id, RewardClaim>, rows: seq<ClaimRow>, row: ClaimRow, totals: map<ClaimStatus, nat>)
    requires TotalsSoFar(claims, rows, totals)
    requires !InRows(rows, row.tier, row.status) && row.count == |Group(claims, row.tier, row.status)|
    ensures TotalsSoFar(claims, rows + [row], totals[row.status := Count1(totals, row.status) + row.count])
  {
    var group := Group(claims, row.tier, row.status);
    CoveredSnoc(claims, rows, row);
    forall status
      ensures |Covered(claims, rows + [row]) * WithStatus(claims, status)|
           == |Covered(claims, rows) * WithStatus(claims, status)| + if status == row.status then row.count else 0
    {
      GroupAdds(Covered(claims, rows), group, WithStatus(claims, status), status == row.status);
    }
  }

  lemma GroupAdds(covered: set<Id>, group: set<Id>, some: set<Id>, inside: bool)
    requires covered !! group && (if inside then group <= some else group !! some)
    ensures |(covered + group) * some| == |covered * some| + if inside then |group| else 0
  {
    assert (covered + group) * some == covered * some + if inside then group else {};
  }

  /** The liability report's loop: one pass fills both dictionaries. */
  method CountClaims(claims: map<Id, RewardClaim>) returns (counts: Counts, totals: map<ClaimStatus, nat>)
    ensures Counting(claims, counts) && Totalling(claims, totals)
  {
    var rows := GroupClaims(claims);
    counts, totals := map[], map[];
    assert Covered(claims, rows[..0]) == {};
    for i := 0 to |rows|
      invariant CountsSoFar(claims, rows[..i], counts) && TotalsSoFar(claims, rows[..i], totals)
    {
      var row := rows[i];
      CountOne(claims, rows[..i], row, counts);
      TotalOne(claims, rows[..i], row, totals);
      assert rows[..i + 1] == rows[..i] + [row];
      counts := WithCount(counts, row);
      totals := totals[row.status := Count1(totals, row.status) + row.count];
    }
    assert rows[..|rows|] == rows;
    AllCovered(claims, rows, counts, totals);
  }

  lemma AllCovered(claims: map<Id, RewardClaim>, rows: seq<ClaimRow>, counts: Counts, totals: map<ClaimStatus, nat>)
    requires Grouped(claims, rows) && CountsSoFar(claims, rows, counts) && TotalsSoFar(claims, rows, totals)
    ensures Counting(claims, counts) && Totalling(claims, totals)
  {
    assert forall k :: k in claims ==> InRows(rows, claims[k].tier, claims[k].status);
    forall t, status ensures Count2(counts, t, status) == |Group(claims, t, status)| {
      if !InRows(rows, t, status) {
        assert Group(claims, t, status) == {};
      }
    }
    forall status ensures Count1(totals, status) == |WithStatus(claims, status)| {
      assert Covered(claims, rows) * WithStatus(claims, status) == WithStatus(claims, status);
    }
  }

  function Among(claims: map<Id, RewardClaim>, tiers: set<Id>, status: ClaimStatus): set<Id> {
    set i | i in claims && claims[i].tier in tiers && claims[i].status == status
  }

  /** The overview's loop: the flat dictionary from the nested one. */
  method StatusTotals(claims: map<Id, RewardClaim>, counts: Counts) returns (totals: map<ClaimStatus, nat>)
    requires Counting(claims, counts)
    ensures Totalling(claims, totals)
  {
    totals := map[];
    var rest := counts.Keys;
    while rest != {}
      invariant rest <= counts.Keys
      invariant forall status :: Count1(totals, status) == |Among(claims, counts.Keys - rest, status)|
    {
      var t :| t in rest;
      ghost var done := counts.Keys - rest;
      totals := AddCounts(totals, counts[t]);
      rest := rest - {t};
      assert counts.Keys - rest == done + {t};
      forall status ensures Count1(totals, status) == |Among(claims, done + {t}, status)| {
        assert Count2(counts, t, status) == |Group(claims, t, status)|;
        AmongOne(claims, done, t, status);
      }
    }
    assert counts.Keys - rest == counts.Keys;
    AllAmong(claims, counts, totals);
  }

  lemma AmongOne(claims: map<Id, RewardClaim>, done: set<Id>, t: Id, status: ClaimStatus)
    requires t !in done
    ensures |Among(claims, done + {t}, status)| == |Among(claims, done, status)| + |Group(claims, t, status)|
  {
    assert Among(claims, done + {t}, status) == Among(claims, done, status) + Group(claims, t, status);
  }

  lemma AllAmong(claims: map<Id, RewardClaim>, counts: Counts, totals: map<ClaimStatus, nat>)
    requires Counting(claims, counts)
    requires forall status :: Count1(totals, status) == |Among(claims, counts.Keys, status)|
    ensures Totalling(claims, totals)
  {
    forall status ensures Count1(totals, status) == |WithStatus(claims, status)| {
      forall i | i in WithStatus(claims, status) ensures claims[i].tier in counts {
        assert Count2(counts, claims[i].tier, status) == |Group(claims, claims[i].tier, status)|;
        assert i in Group(claims, claims[i].tier, status);
      }
      assert Among(claims, counts.Keys, status) == WithStatus(claims, status);
    }
  }

  method AddCounts(before: map<ClaimStatus, nat>, counts: map<ClaimStatus, nat>) returns (totals: map<ClaimStatus, nat>)
    ensures forall status :: Count1(totals, status) == Count1(before, status) + Count1(counts, status)
  {
    totals := before;
    var rest := counts.Keys;
    while rest != {}
      invariant rest <= counts.Keys
      invariant forall status :: Count1(totals, status)
                              == Count1(before, status) + if status in rest then 0 else Count1(counts, status)
    {
      var status :| status in rest;
      totals := totals[status := Count1(totals, status) + counts[status]];
      rest := rest - {status};
    }
  }

  /** sum(d.values()) */
  method SumOfValues(claims: map<Id, RewardClaim>, t: Id, counts: Counts) returns (n: nat)
    requires Counting(claims, counts)
    ensures n == |AtTier(claims, t)|
  {
    n := 0;
    var rest := if t in counts then counts[t].Keys else {};
    ghost var all := rest;
    ghost var seen: set<Id> := {};
    while rest != {}
      invariant rest <= all && all == if t in counts then counts[t].Keys else {}
      invariant seen == set i | i in claims && claims[i].tier == t && claims[i].status in all - rest
      invariant n == |seen|
    {
      var status :| status in rest;
      assert Count2(counts, t, status) == |Group(claims, t, status)|;
      assert seen !! Group(claims, t, status);
      n := n + counts[t][status];
      seen := seen + Group(claims, t, status);
      rest := rest - {status};
    }
    forall i | i in AtTier(claims, t) ensures i in seen {
      assert Count2(counts, t, claims[i].status) == |Group(claims, t, claims[i].status)|;
      assert i in Group(claims, t, claims[i].status);
    }
    assert seen == AtTier(claims, t);
  }

  // ----- the reports -----

  method SumOfTotals(claims: map<Id, RewardClaim>, totals: map<ClaimStatus, nat>) returns (n: nat)
    requires Totalling(claims, totals)
    ensures n == |claims|
  {
    n := 0;
    var rest := totals.Keys;
    ghost var seen: set<Id> := {};
    while rest != {}
      invariant rest <= totals.Keys
      invariant seen == set i | i in claims && claims[i].status in totals.Keys - rest
      invariant n == |seen|
    {
      var status :| status in rest;
      assert Count1(totals, status) == |WithStatus(claims, status)|;
      assert seen !! WithStatus(claims, status);
      n := n + totals[status];
      seen := seen + WithStatus(claims, status);
      rest := rest - {status};
    }
    forall i | i in claims ensures i in seen {
      assert Count1(totals, claims[i].status) == |WithStatus(claims, claims[i].status)|;
      assert i in WithStatus(claims, claims[i].status);
    }
    assert seen == claims.Keys;
  }

  method LiabilityLines(s: map<Id, Snapshot>, claims: map<Id, RewardClaim>, tiers: map<Id, GiftTier>, ladder: seq<Rung>,
                        counts: Counts)
    returns (lines: seq<LiabilityLine>)
    requires Counting(claims, counts) && OnTable(tiers, ladder)
    ensures |lines| == |ladder|
    ensures forall i :: 0 <= i < |ladder| ==> lines[i] == LiabilityLineOf(s, claims, tiers, ladder[i])
  {
    lines := [];
    for i := 0 to |ladder|
      invariant |lines| == i && forall j :: 0 <= j < i ==> lines[j] == LiabilityLineOf(s, claims, tiers, ladder[j])
    {
      var t := ladder[i].id;
      var tier := tiers[t];
      lines := lines + [LiabilityLine(t, ladder[i].required, |Qualified(s, ladder[i].required)|, |Holding(s, Some(t))|,
                                      Count2(counts, t, Pending), Count2(counts, t, Approved),
                                      Count2(counts, t, Fulfilled),
                                      tier.stock, tier.reserved, tier.fulfilled, tier.Available())];
    }
  }

  method BuildLiability(s: map<Id, Snapshot>, claims: map<Id, RewardClaim>, tiers: map<Id, GiftTier>, ladder: seq<Rung>)
    returns (r: Liability)
    requires OnTable(tiers, ladder)
    ensures r == LiabilityOf(s, claims, tiers, ladder)
  {
    var totalQualified := 0;
    if ladder != [] {
      totalQualified := |Qualified(s, ladder[0].required)|;
    }
    var counts, totals := CountClaims(claims);
    var all := SumOfTotals(claims, totals);
    var lines := LiabilityLines(s, claims, tiers, ladder, counts);
    r := Liability(totalQualified, all, Count1(totals, Pending), Count1(totals, Approved),
                   Count1(totals, Fulfilled), lines);
  }

  method OverviewLines(s: map<Id, Snapshot>, claims: map<Id, RewardClaim>, tiers: seq<Rung>, counts: Counts)
    returns (lines: seq<OverviewLine>)
    requires Counting(claims, counts)
    ensures |lines| == |tiers| && forall i :: 0 <= i < |tiers| ==> lines[i] == OverviewLineOf(s, claims, tiers[i])
  {
    lines := [];
    for i := 0 to |tiers|
      invariant |lines| == i && forall j :: 0 <= j < i ==> lines[j] == OverviewLineOf(s, claims, tiers[j])
    {
      var t := tiers[i].id;
      var atTier := SumOfValues(claims, t, counts);
      lines := lines + [OverviewLine(t, tiers[i].required, |Holding(s, Some(t))|, atTier,
                                     Count2(counts, t, Fulfilled))];
    }
  }

  method BuildOverview(s: map<Id, Snapshot>, claims: map<Id, RewardClaim>, tiers: seq<Rung>) returns (r: Overview)
    ensures r == OverviewOf(s, claims, tiers)
  {
    var highest := 0;
    if tiers != [] {
      highest := |Holding(s, Some(tiers[|tiers| - 1].id))|;
    }
    var counts, _ := CountClaims(claims);
    var totals := StatusTotals(claims, counts);
    var lines := OverviewLines(s, claims, tiers, counts);
    r := Overview(|s|, |s.Keys - Holding(s, None)|, highest, Count1(totals, Pending) + Count1(totals, Approved),
                  Count1(totals, Fulfilled), lines);
  }

  lemma LadderOnTable(tiers: map<Id, GiftTier>, c: Id)
    ensures OnTable(tiers, LadderOf(tiers, c))
  {
    var ladder := LadderOf(tiers, c);
    if ladder != [] {
      assert IsActiveLadder(tiers, c, ladder);
      forall i | 0 <= i < |ladder| ensures ladder[i].id in tiers {
        assert ladder[i] in ladder;
      }
    }
  }

  ghost function LiabilityIn(session: Session, c: Id, viewer: Viewer): Liability
    reads session
  {
    LadderOnTable(session.tiers, c);
    LiabilityOf(SnapshotsOf(session.progress, c, viewer), ClaimsOf(session.claims, c, viewer), session.tiers,
                LadderOf(session.tiers, c))
  }

  method GetGiftLiability(session: Session, c: Id, viewer: Viewer) returns (r: Result<Liability, Error>)
    requires LaddersReady(session.tiers)
    ensures r == if !LiveCampaign(session.campaigns, c) then Err(CampaignNotFound)
                 else Ok(LiabilityIn(session, c, viewer))
  {
    if c !in session.campaigns || session.campaigns[c].deleted {
      return Err(CampaignNotFound);
    }
    var tiers := ActiveTiers(session, c);
    LadderUnique(session.tiers, c, tiers, LadderOf(session.tiers, c));
    LadderOnTable(session.tiers, c);
    var report := BuildLiability(SnapshotsOf(session.progress, c, viewer), ClaimsOf(session.claims, c, viewer),
                                 session.tiers, tiers);
    return Ok(report);
  }

  method GetCampaignOverview(session: Session, c: Id, viewer: Viewer) returns (r: Result<Overview, Error>)
    requires LaddersReady(session.tiers)
    ensures r == if !LiveCampaign(session.campaigns, c) then Err(CampaignNotFound)
                 else Ok(OverviewOf(SnapshotsOf(session.progress, c, viewer), ClaimsOf(session.claims, c, viewer),
                                    LadderOf(session.tiers, c)))
  {
    if c !in session.campaigns || session.campaigns[c].deleted {
      return Err(CampaignNotFound);
    }
    var tiers := ActiveTiers(session, c);
    LadderUnique(session.tiers, c, tiers, LadderOf(session.tiers, c));
    var report := BuildOverview(SnapshotsOf(session.progress, c, viewer), ClaimsOf(session.claims, c, viewer), tiers);
    return Ok(report);
  }

  // ----- agreement with the ladder -----

  /** The stored current tier is where the stored total stands on the ladder. */
  ghost predicate Placed(row: Snapshot, ladder: seq<Rung>)
    requires IsLadder(ladder)
  {
    row.currentTier == IdOf(Place(row.total, ladder).current)
  }

  ghost predicate AllPlaced(s: map<Id, Snapshot>, ladder: seq<Rung>)
    requires IsLadder(ladder)
  {
    forall k :: k in s ==> Placed(s[k], ladder)
  }

  /** customers_currently_at_tier summed from rung i to the top */
  function CurrentFrom(s: map<Id, Snapshot>, ladder: seq<Rung>, i: nat): nat
    requires i <= |ladder|
    decreases |ladder| - i
  {
    if i == |ladder| then 0 else |Holding(s, Some(ladder[i].id))| + CurrentFrom(s, ladder, i + 1)
  }

  lemma HoldsIff(row: Snapshot, ladder: seq<Rung>, i: nat)
    requires IsLadder(ladder) && DistinctIds(ladder) && Placed(row, ladder) && i < |ladder|
    ensures row.currentTier == Some(ladder[i].id) <==> Reached(row.total, ladder) == i + 1
    ensures row.total >= ladder[i].required <==> i < Reached(row.total, ladder)
    ensures row.currentTier == None <==> Reached(row.total, ladder) == 0
  {
    ReachedIsPrefix(row.total, ladder);
  }

  // ----- the reports on the columns of the tables -----

  /** The viewer is an administrator, or a sales manager assigned to the customer. */
  predicate MaySee(viewer: Viewer, k: Id) { viewer == None || k in viewer.value }

  /** Every claim count of both reports, written out on the claim table. */
  lemma ClaimCountsOnFields(progress: map<(Id, Id), Snapshot>, claims: map<Id, RewardClaim>, tiers: map<Id, GiftTier>,
                            ladder: seq<Rung>, c: Id, viewer: Viewer)
    requires OnTable(tiers, ladder)
    ensures var s, seen := SnapshotsOf(progress, c, viewer), ClaimsOf(claims, c, viewer);
      var report, overview := LiabilityOf(s, seen, tiers, ladder), OverviewOf(s, seen, ladder);
      var mine := set i | i in claims && claims[i].campaign == c && MaySee(viewer, claims[i].customer);
      && report.totalClaims == |mine|
      && report.pending == |set i | i in mine && claims[i].status == Pending|
      && report.approved == |set i | i in mine && claims[i].status == Approved|
      && report.fulfilled == |set i | i in mine && claims[i].status == Fulfilled|
      && overview.activeClaims
         == |set i | i in mine && claims[i].status == Pending| + |set i | i in mine && claims[i].status == Approved|
      && overview.fulfilledClaims == |set i | i in mine && claims[i].status == Fulfilled|
  {
    var seen := ClaimsOf(claims, c, viewer);
    var mine := set i | i in claims && claims[i].campaign == c && MaySee(viewer, claims[i].customer);
    assert seen.Keys == mine;
    assert WithStatus(seen, Pending) == set i | i in mine && claims[i].status == Pending;
    assert WithStatus(seen, Approved) == set i | i in mine && claims[i].status == Approved;
    assert WithStatus(seen, Fulfilled) == set i | i in mine && claims[i].status == Fulfilled;
  }

  lemma ClaimLinesOnFields(progress: map<(Id, Id), Snapshot>, claims: map<Id, RewardClaim>, tiers: map<Id, GiftTier>,
                           ladder: seq<Rung>, c: Id, viewer: Viewer, i: nat)
    requires OnTable(tiers, ladder) && i < |ladder|
    ensures var s, seen := SnapshotsOf(progress, c, viewer), ClaimsOf(claims, c, viewer);
      var line, other := LiabilityOf(s, seen, tiers, ladder).lines[i], OverviewOf(s, seen, ladder).lines[i];
      var mine := set j | j in claims && claims[j].campaign == c && MaySee(viewer, claims[j].customer)
                          && claims[j].tier == ladder[i].id;
      && line.pending == |set j | j in mine && claims[j].status == Pending|
      && line.approved == |set j | j in mine && claims[j].status == Approved|
      && line.fulfilled == |set j | j in mine && claims[j].status == Fulfilled|
      && other.claims == |mine| && other.fulfilled == line.fulfilled
      && line.tier == other.tier == ladder[i].id && line.required == other.required == ladder[i].required
      && line.stock == tiers[line.tier].stock && line.reservedQuantity == tiers[line.tier].reserved
      && line.fulfilledQuantity == tiers[line.tier].fulfilled
  {
    var seen := ClaimsOf(claims, c, viewer);
    var mine := set j | j in claims && claims[j].campaign == c && MaySee(viewer, claims[j].customer)
                        && claims[j].tier == ladder[i].id;
    assert Group(seen, ladder[i].id, Pending) == set j | j in mine && claims[j].status == Pending;
    assert Group(seen, ladder[i].id, Approved) == set j | j in mine && claims[j].status == Approved;
    assert Group(seen, ladder[i].id, Fulfilled) == set j | j in mine && claims[j].status == Fulfilled;
    assert AtTier(seen, ladder[i].id) == mine;
  }

  /** Every customer count of both reports, written out on the snapshot table. */
  lemma CustomerCountsOnFields(progress: map<(Id, Id), Snapshot>, claims: map<Id, RewardClaim>,
                               tiers: map<Id, GiftTier>, ladder: seq<Rung>, c: Id, viewer: Viewer)
    requires OnTable(tiers, ladder)
    ensures var s, seen := SnapshotsOf(progress, c, viewer), ClaimsOf(claims, c, viewer);
      var report, overview := LiabilityOf(s, seen, tiers, ladder), OverviewOf(s, seen, ladder);
      var mine := set key | key in progress && key.0 == c && MaySee(viewer, key.1) :: key.1;
      && overview.customers == |mine|
      && overview.reachedAny == |set k | k in mine && progress[(c, k)].currentTier.Some?|
      && (ladder != [] ==>
            && report.totalQualified == |set k | k in mine && progress[(c, k)].total >= ladder[0].required|
            && overview.reachedHighest
               == |set k | k in mine && progress[(c, k)].currentTier == Some(ladder[|ladder| - 1].id)|)
      && (ladder == [] ==> report.totalQualified == 0 && overview.reachedHighest == 0)
  {
    var s := SnapshotsOf(progress, c, viewer);
    var mine := set key | key in progress && key.0 == c && MaySee(viewer, key.1) :: key.1;
    SnapshotsOnFields(progress, c, viewer);
    assert s.Keys - Holding(s, None) == set k | k in mine && progress[(c, k)].currentTier.Some?;
    if ladder != [] {
      assert Qualified(s, ladder[0].required) == set k | k in mine && progress[(c, k)].total >= ladder[0].required;
      assert Holding(s, Some(ladder[|ladder| - 1].id))
          == set k | k in mine && progress[(c, k)].currentTier == Some(ladder[|ladder| - 1].id);
    }
  }

  lemma CustomerLinesOnFields(progress: map<(Id, Id), Snapshot>, claims: map<Id, RewardClaim>,
                              tiers: map<Id, GiftTier>, ladder: seq<Rung>, c: Id, viewer: Viewer, i: nat)
    requires OnTable(tiers, ladder) && i < |ladder|
    ensures var s, seen := SnapshotsOf(progress, c, viewer), ClaimsOf(claims, c, viewer);
      var line, other := LiabilityOf(s, seen, tiers, ladder).lines[i], OverviewOf(s, seen, ladder).lines[i];
      var mine := set key | key in progress && key.0 == c && MaySee(viewer, key.1) :: key.1;
      && line.qualified == |set k | k in mine && progress[(c, k)].total >= ladder[i].required|
      && line.current == other.current == |set k | k in mine && progress[(c, k)].currentTier == Some(ladder[i].id)|
  {
    var s := SnapshotsOf(progress, c, viewer);
    var mine := set key | key in progress && key.0 == c && MaySee(viewer, key.1) :: key.1;
    SnapshotsOnFields(progress, c, viewer);
    assert Qualified(s, ladder[i].required) == set k | k in mine && progress[(c, k)].total >= ladder[i].required;
    assert Holding(s, Some(ladder[i].id)) == set k | k in mine && progress[(c, k)].currentTier == Some(ladder[i].id);
  }

  lemma SnapshotsOnFields(progress: map<(Id, Id), Snapshot>, c: Id, viewer: Viewer)
    ensures var s := SnapshotsOf(progress, c, viewer);
      && s.Keys == (set key | key in progress && key.0 == c && MaySee(viewer, key.1) :: key.1)
      && forall k :: k in s ==> (c, k) in progress && s[k] == progress[(c, k)]
  {
    var s := SnapshotsOf(progress, c, viewer);
    var mine := set key | key in progress && key.0 == c && MaySee(viewer, key.1) :: key.1;
    forall k | k in mine ensures k in s {
      assert (c, k) in progress;
    }
  }

  /** A sales manager's reports depend on nothing but the assigned customers. */
  lemma OthersDoNotShow(claims: map<Id, RewardClaim>, others: map<Id, RewardClaim>, progress: map<(Id, Id), Snapshot>,
                        snapshots: map<(Id, Id), Snapshot>, c: Id, seen: set<Id>)
    requires forall i :: (i in claims && claims[i].customer in seen) <==> (i in others && others[i].customer in seen)
    requires forall i :: i in claims && claims[i].customer in seen ==> claims[i] == others[i]
    requires forall k :: k in seen ==> ((c, k) in progress <==> (c, k) in snapshots)
    requires forall k :: k in seen && (c, k) in progress ==> progress[(c, k)] == snapshots[(c, k)]
    ensures ClaimsOf(claims, c, Some(seen)) == ClaimsOf(others, c, Some(seen))
    ensures SnapshotsOf(progress, c, Some(seen)) == SnapshotsOf(snapshots, c, Some(seen))
  {
    SnapshotsOnFields(progress, c, Some(seen));
    SnapshotsOnFields(snapshots, c, Some(seen));
    var a, b := SnapshotsOf(progress, c, Some(seen)), SnapshotsOf(snapshots, c, Some(seen));
    forall k ensures k in a <==> k in b {
      assert k in a <==> k in seen && (c, k) in progress;
      assert k in b <==> k in seen && (c, k) in snapshots;
    }
  }

  // ----- when the suffix sums hold -----

  /** The customers whose stored total reaches n rungs. */
  function Standing(s: map<Id, Snapshot>, ladder: seq<Rung>, n: nat): set<Id> {
    set k | k in s && Reached(s[k].total, ladder) == n
  }

  /** Each qualified count is the sum of the current counts from its rung upwards. */
  ghost predicate SuffixSums(s: map<Id, Snapshot>, ladder: seq<Rung>) {
    forall i :: 0 <= i < |ladder| ==> |Qualified(s, ladder[i].required)| == CurrentFrom(s, ladder, i)
  }

  /** As many customers hold each tier as have a total that stands there. */
  ghost predicate CountsMatch(s: map<Id, Snapshot>, ladder: seq<Rung>) {
    forall i :: 0 <= i < |ladder| ==> |Holding(s, Some(ladder[i].id))| == |Standing(s, ladder, i + 1)|
  }

  lemma QualifiedSplits(s: map<Id, Snapshot>, ladder: seq<Rung>, i: nat)
    requires IsLadder(ladder) && i < |ladder|
    ensures |Qualified(s, ladder[i].required)|
         == |Standing(s, ladder, i + 1)| + if i + 1 < |ladder| then |Qualified(s, ladder[i + 1].required)| else 0
  {
    var here, at := Qualified(s, ladder[i].required), Standing(s, ladder, i + 1);
    var above := if i + 1 < |ladder| then Qualified(s, ladder[i + 1].required) else {};
    forall k | k in s ensures k in here <==> k in at || k in above ensures !(k in at && k in above) {
      ReachedIsPrefix(s[k].total, ladder);
    }
    assert here == at + above && at !! above;
  }

  lemma {:induction false} SumsFromCounts(s: map<Id, Snapshot>, ladder: seq<Rung>, i: nat)
    requires IsLadder(ladder) && CountsMatch(s, ladder) && i < |ladder|
    ensures |Qualified(s, ladder[i].required)| == CurrentFrom(s, ladder, i)
    decreases |ladder| - i
  {
    QualifiedSplits(s, ladder, i);
    if i + 1 == |ladder| {
      assert CurrentFrom(s, ladder, i + 1) == 0;
    } else {
      SumsFromCounts(s, ladder, i + 1);
    }
  }

  /** The suffix sums hold if and only if as many customers are reported at each tier as
      have a total that stands there. */
  lemma SuffixSumsIff(s: map<Id, Snapshot>, ladder: seq<Rung>)
    requires IsLadder(ladder)
    ensures SuffixSums(s, ladder) <==> CountsMatch(s, ladder)
  {
    if CountsMatch(s, ladder) {
      forall i | 0 <= i < |ladder| ensures |Qualified(s, ladder[i].required)| == CurrentFrom(s, ladder, i) {
        SumsFromCounts(s, ladder, i);
      }
    }
    if SuffixSums(s, ladder) {
      forall i | 0 <= i < |ladder| ensures |Holding(s, Some(ladder[i].id))| == |Standing(s, ladder, i + 1)| {
        QualifiedSplits(s, ladder, i);
        assert i + 1 == |ladder| ==> CurrentFrom(s, ladder, i + 1) == 0;
      }
    }
  }

  /** In particular they hold if every snapshot was placed on the current ladder. */
  lemma QualifiedIsSuffixSum(s: map<Id, Snapshot>, ladder: seq<Rung>, i: nat)
    requires IsLadder(ladder) && DistinctIds(ladder) && AllPlaced(s, ladder) && i < |ladder|
    ensures |Qualified(s, ladder[i].required)| == CurrentFrom(s, ladder, i)
  {
    PlacedMatches(s, ladder);
    SuffixSumsIff(s, ladder);
  }

  lemma PlacedMatches(s: map<Id, Snapshot>, ladder: seq<Rung>)
    requires IsLadder(ladder) && DistinctIds(ladder) && AllPlaced(s, ladder)
    ensures CountsMatch(s, ladder) && Holding(s, None) == Standing(s, ladder, 0)
  {
    forall i | 0 <= i < |ladder| ensures Holding(s, Some(ladder[i].id)) == Standing(s, ladder, i + 1) {
      forall k | k in s ensures k in Holding(s, Some(ladder[i].id)) <==> k in Standing(s, ladder, i + 1) {
        HoldsIff(s[k], ladder, i);
      }
    }
    forall k | k in s ensures k in Holding(s, None) <==> k in Standing(s, ladder, 0) {
      ReachedIsPrefix(s[k].total, ladder);
    }
  }

  /** Qualified counts never increase along the ladder, whatever the snapshots say. */
  lemma QualifiedAntitone(s: map<Id, Snapshot>, ladder: seq<Rung>, i: nat, j: nat)
    requires IsLadder(ladder) && i <= j < |ladder|
    ensures |Qualified(s, ladder[j].required)| <= |Qualified(s, ladder[i].required)|
  {
    assert Qualified(s, ladder[j].required) <= Qualified(s, ladder[i].required);
    SubsetSmaller(Qualified(s, ladder[j].required), Qualified(s, ladder[i].required));
  }

  lemma SubsetSmaller(a: set<Id>, b: set<Id>)
    requires a <= b
    ensures |a| <= |b|
  {
    assert b == a + (b - a);
  }

  /** The reports agree: suffix sums, and the total qualified of the one report is the
      customers reached any tier of the other. */
  ghost predicate Agree(s: map<Id, Snapshot>, ladder: seq<Rung>) {
    && SuffixSums(s, ladder)
    && |s.Keys - Holding(s, None)| == if ladder == [] then 0 else |Qualified(s, ladder[0].required)|
  }

  /** They agree if and only if each tier, and no tier at all, is reported for as many
      customers as have a total that stands there. */
  lemma AgreeIff(s: map<Id, Snapshot>, ladder: seq<Rung>)
    requires IsLadder(ladder)
    ensures Agree(s, ladder) <==> CountsMatch(s, ladder) && |Holding(s, None)| == |Standing(s, ladder, 0)|
  {
    SuffixSumsIff(s, ladder);
    EveryoneCounted(s, ladder);
  }

  lemma EveryoneCounted(s: map<Id, Snapshot>, ladder: seq<Rung>)
    requires IsLadder(ladder)
    ensures |s.Keys - Holding(s, None)| + |Holding(s, None)|
         == (if ladder == [] then 0 else |Qualified(s, ladder[0].required)|) + |Standing(s, ladder, 0)|
  {
    var qualified := if ladder == [] then {} else Qualified(s, ladder[0].required);
    forall k | k in s ensures k in qualified <==> k !in Standing(s, ladder, 0) {
      ReachedIsPrefix(s[k].total, ladder);
    }
    TwoParts(s.Keys, qualified, Standing(s, ladder, 0));
    TwoParts(s.Keys, s.Keys - Holding(s, None), Holding(s, None));
  }

  lemma TwoParts(all: set<Id>, a: set<Id>, b: set<Id>)
    requires all == a + b && a !! b
    ensures |all| == |a| + |b|
  {
  }

  /** What a viewer who sees these customers gets. */
  function SeenBy(s: map<Id, Snapshot>, seen: set<Id>): map<Id, Snapshot> {
    map k | k in s && k in seen :: s[k]
  }

  lemma ManagersSeePart(progress: map<(Id, Id), Snapshot>, c: Id, seen: set<Id>)
    ensures SnapshotsOf(progress, c, Some(seen)) == SeenBy(SnapshotsOf(progress, c, None), seen)
  {
  }

  ghost predicate AgreeForEveryViewer(s: map<Id, Snapshot>, ladder: seq<Rung>) {
    forall seen :: Agree(SeenBy(s, seen), ladder)
  }

  /** Counts may match by accident, but the reports of every viewer agree if and only if
      every single snapshot is placed on the current ladder. */
  lemma AgreeForEveryViewerIff(s: map<Id, Snapshot>, ladder: seq<Rung>)
    requires IsLadder(ladder) && DistinctIds(ladder)
    ensures AgreeForEveryViewer(s, ladder) <==> AllPlaced(s, ladder)
  {
    if AllPlaced(s, ladder) {
      forall seen ensures Agree(SeenBy(s, seen), ladder) {
        PlacedAgree(SeenBy(s, seen), ladder);
      }
    }
    if AgreeForEveryViewer(s, ladder) {
      forall k | k in s ensures Placed(s[k], ladder) {
        assert Agree(SeenBy(s, {k}), ladder);
        SeenAlone(s, k);
        OneAgrees(k, s[k], ladder);
      }
    }
  }

  lemma PlacedAgree(s: map<Id, Snapshot>, ladder: seq<Rung>)
    requires IsLadder(ladder) && DistinctIds(ladder) && AllPlaced(s, ladder)
    ensures Agree(s, ladder)
  {
    PlacedMatches(s, ladder);
    AgreeIff(s, ladder);
  }

  lemma SeenAlone(s: map<Id, Snapshot>, k: Id)
    requires k in s
    ensures SeenBy(s, {k}) == map[k := s[k]]
  {
  }

  lemma OneAgrees(k: Id, row: Snapshot, ladder: seq<Rung>)
    requires IsLadder(ladder) && Agree(map[k := row], ladder)
    ensures Placed(row, ladder)
  {
    var one := map[k := row];
    AgreeIff(one, ladder);
    var n := Reached(row.total, ladder);
    assert Standing(one, ladder, n) == {k};
    if n == 0 {
      HeldByOne(k, row, None);
    } else {
      assert |Holding(one, Some(ladder[n - 1].id))| == 1;
      HeldByOne(k, row, Some(ladder[n - 1].id));
    }
  }

  lemma HeldByOne(k: Id, row: Snapshot, tier: Option<Id>)
    requires |Holding(map[k := row], tier)| == 1
    ensures row.currentTier == tier
  {
    var at :| at in Holding(map[k := row], tier);
  }

  /** A snapshot is reported at exactly the rung, if any, where its total stands. */
  ghost predicate OnItsRung(row: Snapshot, ladder: seq<Rung>) {
    forall i :: 0 <= i < |ladder| ==> (row.currentTier == Some(ladder[i].id) <==> Reached(row.total, ladder) == i + 1)
  }

  /** The suffix sums alone hold for every viewer if and only if every snapshot is reported
      at its rung; a tier that left the ladder does not disturb them. */
  lemma SumsForEveryViewerIff(s: map<Id, Snapshot>, ladder: seq<Rung>)
    requires IsLadder(ladder)
    ensures (forall seen :: SuffixSums(SeenBy(s, seen), ladder)) <==> (forall k :: k in s ==> OnItsRung(s[k], ladder))
  {
    if forall k :: k in s ==> OnItsRung(s[k], ladder) {
      forall seen ensures SuffixSums(SeenBy(s, seen), ladder) {
        RungsMatch(SeenBy(s, seen), ladder);
      }
    }
    if forall seen :: SuffixSums(SeenBy(s, seen), ladder) {
      forall k | k in s ensures OnItsRung(s[k], ladder) {
        assert SuffixSums(SeenBy(s, {k}), ladder);
        SeenAlone(s, k);
        OneMatches(k, s[k], ladder);
      }
    }
  }

  lemma RungsMatch(s: map<Id, Snapshot>, ladder: seq<Rung>)
    requires IsLadder(ladder) && forall k :: k in s ==> OnItsRung(s[k], ladder)
    ensures SuffixSums(s, ladder)
  {
    forall i | 0 <= i < |ladder| ensures Holding(s, Some(ladder[i].id)) == Standing(s, ladder, i + 1) {
    }
    SuffixSumsIff(s, ladder);
  }

  lemma OneMatches(k: Id, row: Snapshot, ladder: seq<Rung>)
    requires IsLadder(ladder) && SuffixSums(map[k := row], ladder)
    ensures OnItsRung(row, ladder)
  {
    var one := map[k := row];
    SuffixSumsIff(one, ladder);
    forall i | 0 <= i < |ladder|
      ensures row.currentTier == Some(ladder[i].id) <==> Reached(row.total, ladder) == i + 1
    {
      assert |Holding(one, Some(ladder[i].id))| == |Standing(one, ladder, i + 1)|;
      assert Holding(one, Some(ladder[i].id)) == if row.currentTier == Some(ladder[i].id) then {k} else {};
      assert Standing(one, ladder, i + 1) == if Reached(row.total, ladder) == i + 1 then {k} else {};
    }
  }

  /** The two reports agree with each other and with the ladder: in the liability report
      each tier's qualified count is the sum of the current counts from it upwards, the
      first equals the total qualified, which equals the overview's customers reached any
      tier, and the last equals the overview's customers reached highest tier. */
  lemma ReportsAgree(s: map<Id, Snapshot>, claims: map<Id, RewardClaim>, tiers: map<Id, GiftTier>, ladder: seq<Rung>)
    requires OnTable(tiers, ladder) && IsLadder(ladder) && ladder != []
    requires CountsMatch(s, ladder) && |Holding(s, None)| == |Standing(s, ladder, 0)|
    ensures var report, overview := LiabilityOf(s, claims, tiers, ladder), OverviewOf(s, claims, ladder);
      && (forall i :: 0 <= i < |ladder| ==> report.lines[i].qualified == CurrentFrom(s, ladder, i))
      && (forall i :: 0 <= i < |ladder| ==> report.lines[i].current == overview.lines[i].current)
      && report.lines[0].qualified == report.totalQualified == overview.reachedAny
      && report.lines[|ladder| - 1].qualified == overview.reachedHighest
      && report.pending + report.approved == overview.activeClaims && report.fulfilled == overview.fulfilledClaims
  {
    AgreeIff(s, ladder);
    assert CurrentFrom(s, ladder, |ladder|) == 0;
  }

  /** A snapshot that a recomputation would reproduce is placed on the current ladder, so
      all reports agree while the cache is up to date. */
  lemma UpToDateIsPlaced(books: Books, cache: Cache, c: Id, k: Id)
    requires UpToDate(books, cache, c, k)
    ensures Placed(cache.snapshots[(c, k)], LadderOf(books.tiers, c))
  {
  }

  /** After an edit of the ladder they need not agree: a customer whose tier was raised after the last
      recalculation is still reported at the tier, but no longer qualified for it. */
  lemma StaleSnapshotBreaksSuffixSum()
    ensures var stats := Stats(0, 0, 0, 0, 0, 0, false, Gross, AllValidDocuments, Exclude);
      var s := map[7 := SnapshotOf(50, "UZS", stats, Place(50, [Rung(1, 40)]))];
      |Qualified(s, 100)| == 0 && CurrentFrom(s, [Rung(1, 100)], 0) == 1
  {
    var stats := Stats(0, 0, 0, 0, 0, 0, false, Gross, AllValidDocuments, Exclude);
    ReachedIs(50, [Rung(1, 40)], 1);
    var s := map[7 := SnapshotOf(50, "UZS", stats, Place(50, [Rung(1, 40)]))];
    assert Qualified(s, 100) == {};
    assert Holding(s, Some(1)) == {7};
    assert CurrentFrom(s, [Rung(1, 100)], 1) == 0;
  }

  // ----- agreement with the stock counters -----

  /** In an administrator's liability report the approved claims of a tracked tier are its
      reserved quantity, the fulfilled claims its fulfilled quantity, and what is available
      is the stock less both. */
  lemma LiabilityMatchesStock(d: Claims.Desk, c: Id, s: map<Id, Snapshot>, ladder: seq<Rung>, i: nat)
    requires i < |ladder| && Claims.Linked(d) && OnTable(d.tiers, ladder)
    requires var t := ladder[i].id;
             d.tiers[t].campaign == c && d.tiers[t].mode != Untracked
             && Claims.ReservedCounts(d, t) && Claims.FulfilledCounts(d, t)
    ensures var line := LiabilityOf(s, ClaimsOf(d.claims, c, None), d.tiers, ladder).lines[i];
            && line.approved == line.reservedQuantity && line.fulfilled == line.fulfilledQuantity
            && (line.stock.Some? ==> line.availableQuantity == Some(line.stock.value - line.approved - line.fulfilled))
  {
    var t, claims := ladder[i].id, ClaimsOf(d.claims, c, None);
    assert Group(claims, t, Approved) == Claims.ClaimsAt(d, t, Approved);
    assert Group(claims, t, Fulfilled) == Claims.ClaimsAt(d, t, Fulfilled);
  }
}
