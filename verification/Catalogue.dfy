// Campaigns and their gift tiers: the edits that keep the ladder well defined.
module Catalogue {
  import opened Basics
  import opened Models
  import opened Decimals
  import opened Database
  import opened Progress
  import opened Strings

  /** A field of an update request: left out, or set, possibly to null. */
  datatype Patch<+T> = Keep | Put(value: Option<T>)

  datatype TierPatch = TierPatch(
    required: Patch<int>, mode: Patch<StockTrackingMode>, stock: Patch<int>, active: Patch<bool>)

  datatype CampaignPatch = CampaignPatch(
    startDate: Patch<Date>, endDate: Patch<Date>, rules: Patch<StoredRules>, allowClaims: Patch<bool>)

  const NO_RULES := StoredRules(None, None, None, None, None, None)

  datatype Catalogue = Catalogue(campaigns: map<Id, Campaign>, tiers: map<Id, GiftTier>)

  function CatalogueOf(session: Session): Catalogue
    reads session
  {
    Catalogue(session.campaigns, session.tiers)
  }

  // ----- queries -----

  function LiveTiers(tiers: map<Id, GiftTier>, c: Id): set<Id> {
    set t | t in tiers && tiers[t].campaign == c && !tiers[t].deleted
  }

  predicate Editable(campaigns: map<Id, Campaign>, c: Id) {
    LiveCampaign(campaigns, c) && campaigns[c].status != Archived && campaigns[c].status != Completed
  }

  predicate AmountTaken(tiers: map<Id, GiftTier>, c: Id, amount: int, except: Option<Id>) {
    exists t :: t in LiveTiers(tiers, c) && tiers[t].required == amount && Some(t) != except
  }

  ghost predicate IsMaxOrder(tiers: map<Id, GiftTier>, ids: set<Id>, m: int)
    requires ids <= tiers.Keys
  {
    (exists t :: t in ids && tiers[t].sortOrder == m) && forall t :: t in ids ==> tiers[t].sortOrder <= m
  }

  lemma {:induction false} MaxOrderExists(tiers: map<Id, GiftTier>, ids: set<Id>)
    requires ids <= tiers.Keys && ids != {}
    ensures exists m :: IsMaxOrder(tiers, ids, m)
  {
    var t :| t in ids;
    if ids == {t} {
      assert IsMaxOrder(tiers, ids, tiers[t].sortOrder);
    } else {
      MaxOrderExists(tiers, ids - {t});
      var n :| IsMaxOrder(tiers, ids - {t}, n);
      var u :| u in ids - {t} && tiers[u].sortOrder == n;
      assert forall v :: v in ids ==> v == t || v in ids - {t};
      assert IsMaxOrder(tiers, ids, Max(n, tiers[t].sortOrder));
    }
  }

  /** One past the largest sort order among the live tiers. */
  ghost function NextOrder(tiers: map<Id, GiftTier>, c: Id): int {
    var ids := LiveTiers(tiers, c);
    if ids == {} then 0
    else
      MaxOrderExists(tiers, ids);
      var m :| IsMaxOrder(tiers, ids, m);
      m + 1
  }

  method NextSortOrder(session: Session, c: Id) returns (n: int)
    ensures n == NextOrder(session.tiers, c)
  {
    var tiers := session.tiers;
    var rest := LiveTiers(tiers, c);
    if rest == {} {
      return 0;
    }
    ghost var ids := rest;
    var t :| t in rest;
    var m := tiers[t].sortOrder;
    rest := rest - {t};
    assert ids - rest == {t};
    while rest != {}
      invariant rest <= ids && ids - rest != {}
      invariant IsMaxOrder(tiers, ids - rest, m)
    {
      var u :| u in rest;
      ghost var seen := ids - rest;
      assert ids - (rest - {u}) == seen + {u};
      m := Max(m, tiers[u].sortOrder);
      rest := rest - {u};
    }
    assert ids - rest == ids;
    return m + 1;
  }

  // ----- edits -----

  predicate NullIn<T>(p: Patch<T>) { p.Put? && p.value.None? }

  function Apply1<T>(p: Patch<T>, current: T): T {
    if p.Put? && p.value.Some? then p.value.value else current
  }

  /** The columns an update writes; stock is the only one that may become null. */
  function Patched(tier: GiftTier, p: TierPatch): GiftTier {
    tier.(required := Apply1(p.required, tier.required),
          mode := Apply1(p.mode, tier.mode),
          stock := if p.stock.Put? then p.stock.value else tier.stock,
          active := Apply1(p.active, tier.active))
  }

  predicate PatchNullsColumn(p: TierPatch) { NullIn(p.required) || NullIn(p.mode) || NullIn(p.active) }

  /** The last position of an id in a list. */
  function LastIndex(ids: seq<Id>, t: Id): (i: nat)
    requires t in ids
    ensures i < |ids| && ids[i] == t && t !in ids[i + 1..]
  {
    if ids[|ids| - 1] == t then |ids| - 1
    else
      assert t in ids[..|ids| - 1];
      LastIndex(ids[..|ids| - 1], t)
  }

  function Reordered(tiers: map<Id, GiftTier>, ids: seq<Id>): map<Id, GiftTier> {
    map t | t in tiers :: if t in ids then tiers[t].(sortOrder := LastIndex(ids, t)) else tiers[t]
  }

  datatype StatusChange = Activate | Pause | Complete | Archive

  function NextStatus(status: CampaignStatus, change: StatusChange): Option<CampaignStatus> {
    match change
    case Activate => if status == Draft || status == Paused then Some(Active) else None
    case Pause => if status == Active then Some(Paused) else None
    case Complete => if status == Active || status == Paused then Some(Completed) else None
    case Archive => if status == Draft || status == Completed then Some(Archived) else None
  }

  ghost predicate ActivationValid(s: Catalogue, c: Id)
    requires c in s.campaigns
  {
    && s.campaigns[c].startDate <= s.campaigns[c].endDate
    && ActiveIds(s.tiers, c) != {}
    && (forall t :: t in ActiveIds(s.tiers, c) ==> s.tiers[t].currency == s.campaigns[c].currency)
    && DistinctActiveAmounts(s.tiers, c)
  }

  /** currency is the requested code or the company's; whether claims are allowed falls
      back on the company's setting and then on true. */
  datatype CampaignRequest = CampaignRequest(
    startDate: Date, endDate: Date, currency: string, rules: StoredRules,
    allow: Option<bool>, companyDefault: Option<bool>)

  function AllowClaims(r: CampaignRequest): bool {
    match r.allow
    case Some(allow) => allow
    case None => r.companyDefault != Some(false)
  }

  function NewCampaign(r: CampaignRequest, currency: string): Campaign {
    Campaign(r.startDate, r.endDate, Draft, currency, r.rules, AllowClaims(r), false)
  }

  /** Every call that touches these tables; Stock is what the claim service writes. */
  datatype Op =
    | CreateCampaign(c: Id, request: CampaignRequest)
    | UpdateCampaign(c: Id, campaignPatch: CampaignPatch)
    | DeleteCampaign(c: Id)
    | ChangeStatus(c: Id, change: StatusChange)
    | CreateTier(c: Id, t: Id, required: int, mode: StockTrackingMode, stock: Option<int>, active: bool)
    | UpdateTier(c: Id, t: Id, tierPatch: TierPatch)
    | DeleteTier(c: Id, t: Id)
    | ReorderTiers(c: Id, ids: seq<Id>)
    | Stock(t: Id, reserved: int, fulfilled: int)

  /** Amounts are positive, as the request schemas check, and fit the 64-bit column. */
  predicate SchemaValid(op: Op) {
    match op
    case CreateTier(_, _, required, _, _, _) => 0 < required < INT64_LIMIT
    case UpdateTier(_, _, p) => p.required.Put? && p.required.value.Some? ==> 0 < p.required.value.value < INT64_LIMIT
    case _ => true
  }

  /** Why a campaign may not be edited. */
  function EditRefusals(campaigns: map<Id, Campaign>, c: Id): set<Error> {
    if !LiveCampaign(campaigns, c) then {CampaignNotFound}
    else if campaigns[c].status == Archived then {ArchivedNotEditable}
    else if campaigns[c].status == Completed then {CompletedNotEditable}
    else {}
  }

  /** Why a campaign may not be activated. The tiers come in any order, so a campaign with
      both kinds of bad tier may be refused for either. */
  ghost function ActivationRefusals(s: Catalogue, c: Id): set<Error>
    requires c in s.campaigns
  {
    var campaign, ids := s.campaigns[c], ActiveIds(s.tiers, c);
    if campaign.endDate < campaign.startDate then {BadDateRange}
    else if ids == {} then {NoActiveTiers}
    else
      (if exists t :: t in ids && s.tiers[t].currency != campaign.currency then {TierCurrencyDiffers} else {})
      + (if DistinctActiveAmounts(s.tiers, c) then {} else {DuplicateAmount})
  }

  /** The errors a call may raise; several only where the code reads rows in any order. */
  ghost function Refusals(s: Catalogue, op: Op): set<Error> {
    match op
    case CreateCampaign(_, r) =>
      if r.endDate < r.startDate then {BadDateRange}
      else if NormalizeCurrency(r.currency).None? then {BadCurrency}
      else {}
    case UpdateCampaign(c, p) =>
      if !Editable(s.campaigns, c) then EditRefusals(s.campaigns, c)
      else if NullIn(p.startDate) || NullIn(p.endDate) then {NullColumn}
      else if Apply1(p.endDate, s.campaigns[c].endDate) < Apply1(p.startDate, s.campaigns[c].startDate)
        then {BadDateRange}
      else if NullIn(p.allowClaims) then {NullColumn}
      else {}
    case DeleteCampaign(c) => if !LiveCampaign(s.campaigns, c) then {CampaignNotFound} else {}
    case ChangeStatus(c, change) =>
      if !LiveCampaign(s.campaigns, c) then {CampaignNotFound}
      else if NextStatus(s.campaigns[c].status, change).None? then {WrongStatus}
      else if change == Activate then ActivationRefusals(s, c)
      else {}
    case CreateTier(c, _, required, _, _, _) =>
      if !Editable(s.campaigns, c) then EditRefusals(s.campaigns, c)
      else if AmountTaken(s.tiers, c, required, None) then {DuplicateAmount}
      else {}
    case UpdateTier(c, t, p) =>
      if !Editable(s.campaigns, c) then EditRefusals(s.campaigns, c)
      else if t !in LiveTiers(s.tiers, c) then {TierNotFound}
      else if p.required.Put? && p.required.value.Some? && AmountTaken(s.tiers, c, p.required.value.value, Some(t))
        then {DuplicateAmount}
      else if PatchNullsColumn(p) then {NullColumn}
      else {}
    case DeleteTier(c, t) =>
      if !Editable(s.campaigns, c) then EditRefusals(s.campaigns, c)
      else if t !in LiveTiers(s.tiers, c) then {TierNotFound}
      else {}
    case ReorderTiers(c, ids) =>
      if !Editable(s.campaigns, c) then EditRefusals(s.campaigns, c)
      else if (set t | t in ids) != LiveTiers(s.tiers, c) then {IncompleteReorder}
      else {}
    case Stock(_, _, _) => {}
  }

  /** What a call does when nothing refuses it. */
  ghost function Effect(s: Catalogue, op: Op): Catalogue
    requires Refusals(s, op) == {} && (op.Stock? ==> op.t in s.tiers)
  {
    match op
    case CreateCampaign(c, r) => s.(campaigns := s.campaigns[c := NewCampaign(r, NormalizeCurrency(r.currency).value)])
    case UpdateCampaign(c, p) =>
      var campaign := s.campaigns[c];
      s.(campaigns := s.campaigns[c := campaign.(
        startDate := Apply1(p.startDate, campaign.startDate), endDate := Apply1(p.endDate, campaign.endDate),
        rules := if NullIn(p.rules) then NO_RULES else Apply1(p.rules, campaign.rules),
        allowClaims := Apply1(p.allowClaims, campaign.allowClaims))])
    case DeleteCampaign(c) => s.(campaigns := s.campaigns[c := s.campaigns[c].(deleted := true)])
    case ChangeStatus(c, change) =>
      s.(campaigns := s.campaigns[c := s.campaigns[c].(status := NextStatus(s.campaigns[c].status, change).value)])
    case CreateTier(c, t, required, mode, stock, active) =>
      s.(tiers := s.tiers[t := GiftTier(c, required, s.campaigns[c].currency, mode, stock, 0, 0,
                                        NextOrder(s.tiers, c), active, false)])
    case UpdateTier(c, t, p) => s.(tiers := s.tiers[t := Patched(s.tiers[t], p)])
    case DeleteTier(c, t) => s.(tiers := s.tiers[t := s.tiers[t].(active := false, deleted := true)])
    case ReorderTiers(c, ids) => s.(tiers := Reordered(s.tiers, ids))
    case Stock(t, reserved, fulfilled) =>
      s.(tiers := s.tiers[t := s.tiers[t].(reserved := reserved, fulfilled := fulfilled)])
  }

  /** A campaign or tier is created under an id that is not in use, and stock is written
      for a tier that exists. */
  predicate IdFits(s: Catalogue, op: Op) {
    match op
    case CreateCampaign(c, _) => c !in s.campaigns
    case CreateTier(_, t, _, _, _, _) => t !in s.tiers
    case Stock(t, _, _) => t in s.tiers
    case _ => true
  }

  /** The effect of one call, or None when it raises and the request is rolled back. */
  ghost function Apply(s: Catalogue, op: Op): Option<Catalogue> {
    if IdFits(s, op) && Refusals(s, op) == {} then Some(Effect(s, op)) else None
  }

  ghost function Step(s: Catalogue, op: Op): Catalogue {
    match Apply(s, op)
    case None => s
    case Some(next) => next
  }

  ghost function Run(s: Catalogue, ops: seq<Op>): Catalogue {
    if ops == [] then s else Step(Run(s, ops[..|ops| - 1]), ops[|ops| - 1])
  }

  // ----- invariants over every run -----

  ghost predicate TiersDiffer(tiers: map<Id, GiftTier>, c: Id) {
    forall a, b :: a in LiveTiers(tiers, c) && b in LiveTiers(tiers, c) && a != b ==>
      tiers[a].required != tiers[b].required && tiers[a].sortOrder != tiers[b].sortOrder
  }

  ghost predicate AllDiffer(tiers: map<Id, GiftTier>) {
    forall c :: TiersDiffer(tiers, c)
  }

  /** Every row for itself: dates in order, amounts in range, the campaign's currency. */
  ghost predicate RowsFit(s: Catalogue) {
    && (forall c :: c in s.campaigns ==> s.campaigns[c].startDate <= s.campaigns[c].endDate)
    && (forall t :: t in s.tiers ==>
          && 0 < s.tiers[t].required < INT64_LIMIT
          && s.tiers[t].campaign in s.campaigns
          && s.tiers[t].currency == s.campaigns[s.tiers[t].campaign].currency)
  }

  /** Live tiers of a campaign also differ in amount and in order. */
  ghost predicate Inv(s: Catalogue) { RowsFit(s) && AllDiffer(s.tiers) }

  lemma StepKeepsInv(s: Catalogue, op: Op)
    requires Inv(s) && SchemaValid(op)
    ensures Inv(Step(s, op))
  {
    StepKeepsRows(s, op);
    StepKeepsDifference(s, op);
  }

  lemma StepKeepsRows(s: Catalogue, op: Op)
    requires RowsFit(s) && SchemaValid(op)
    ensures RowsFit(Step(s, op))
  {
  }

  lemma StepKeepsDifference(s: Catalogue, op: Op)
    requires AllDiffer(s.tiers) && SchemaValid(op)
    ensures AllDiffer(Step(s, op).tiers)
  {
    if Apply(s, op).Some? {
      match op
      case CreateTier(c, t, _, _, _, _) => CreateKeepsDifference(s.tiers, t, Step(s, op).tiers[t]);
      case UpdateTier(c, t, _) => UpdateKeepsDifference(s.tiers, t, Step(s, op).tiers[t]);
      case DeleteTier(c, t) => UpdateKeepsDifference(s.tiers, t, Step(s, op).tiers[t]);
      case ReorderTiers(c, ids) => ReorderKeepsDifference(s.tiers, c, ids);
      case Stock(t, _, _) => UpdateKeepsDifference(s.tiers, t, Step(s, op).tiers[t]);
      case _ =>
    }
  }

  lemma CreateKeepsDifference(tiers: map<Id, GiftTier>, t: Id, tier: GiftTier)
    requires AllDiffer(tiers)
    requires t !in tiers && !AmountTaken(tiers, tier.campaign, tier.required, None)
    requires tier.sortOrder == NextOrder(tiers, tier.campaign)
    ensures AllDiffer(tiers[t := tier])
  {
    var next := tiers[t := tier];
    forall c ensures TiersDiffer(next, c) {
      assert TiersDiffer(tiers, c);
      assert LiveTiers(next, c) <= LiveTiers(tiers, c) + {t};
      assert forall a :: a in LiveTiers(next, c) && a != t ==> a in LiveTiers(tiers, c);
    }
  }

  /** An edit of one live tier that keeps its campaign and order, and takes no amount a
      sibling has. */
  lemma UpdateKeepsDifference(tiers: map<Id, GiftTier>, t: Id, tier: GiftTier)
    requires AllDiffer(tiers)
    requires t in tiers && tier.campaign == tiers[t].campaign && tier.sortOrder == tiers[t].sortOrder
    requires !tier.deleted ==> !tiers[t].deleted
    requires tier.required == tiers[t].required || !AmountTaken(tiers, tier.campaign, tier.required, Some(t))
    ensures AllDiffer(tiers[t := tier])
  {
    var next := tiers[t := tier];
    forall c ensures TiersDiffer(next, c) {
      assert TiersDiffer(tiers, c);
      assert forall a :: a in LiveTiers(next, c) ==> a in LiveTiers(tiers, c);
    }
  }

  lemma ReorderKeepsDifference(tiers: map<Id, GiftTier>, c: Id, ids: seq<Id>)
    requires AllDiffer(tiers)
    requires (set t | t in ids) == LiveTiers(tiers, c)
    ensures AllDiffer(Reordered(tiers, ids))
  {
    var next := Reordered(tiers, ids);
    forall d ensures TiersDiffer(next, d) {
      assert TiersDiffer(tiers, d);
      assert forall a :: a in LiveTiers(next, d) <==> a in LiveTiers(tiers, d);
      assert forall a :: a in ids <==> a in LiveTiers(tiers, c);
    }
  }

  /** Over every run of catalogue calls and claim bookkeeping, from an empty database:
      live tiers of a campaign have distinct amounts, distinct sort orders and the
      campaign's currency, even when a reorder request repeats ids. */
  lemma {:induction false} RunKeepsInv(ops: seq<Op>)
    requires forall i :: 0 <= i < |ops| ==> SchemaValid(ops[i])
    ensures Inv(Run(Catalogue(map[], map[]), ops))
  {
    if ops == [] {
    } else {
      RunKeepsInv(ops[..|ops| - 1]);
      StepKeepsInv(Run(Catalogue(map[], map[]), ops[..|ops| - 1]), ops[|ops| - 1]);
    }
  }

  /** The progress engine's ladder query is well defined in every such state. */
  lemma InvMakesLaddersReady(s: Catalogue)
    requires Inv(s)
    ensures LaddersReady(s.tiers)
  {
    forall c ensures DistinctActiveAmounts(s.tiers, c) {
      assert TiersDiffer(s.tiers, c);
      assert ActiveIds(s.tiers, c) <= LiveTiers(s.tiers, c);
    }
  }

  /** Activation from draft or paused fails only for lack of an active tier. */
  lemma ActivationIff(s: Catalogue, c: Id)
    requires Inv(s) && LiveCampaign(s.campaigns, c)
    ensures Apply(s, ChangeStatus(c, Activate)).Some?
       <==> s.campaigns[c].status in {Draft, Paused}
            && exists t :: t in s.tiers && s.tiers[t].campaign == c && s.tiers[t].active && !s.tiers[t].deleted
  {
    InvMakesLaddersReady(s);
    if ActiveIds(s.tiers, c) != {} {
      var t :| t in ActiveIds(s.tiers, c);
    }
    assert forall t :: t in ActiveIds(s.tiers, c) <==>
      t in s.tiers && s.tiers[t].campaign == c && s.tiers[t].active && !s.tiers[t].deleted;
  }

  /** What a request that repeats no id does: the tiers list in the order requested. */
  lemma ReorderMeaning(tiers: map<Id, GiftTier>, ids: seq<Id>, i: nat)
    requires i < |ids| && ids[i] in tiers
    requires forall a, b :: 0 <= a < b < |ids| ==> ids[a] != ids[b]
    ensures Reordered(tiers, ids)[ids[i]] == tiers[ids[i]].(sortOrder := i)
  {
  }

  // ----- the calls on the columns of the rows -----

  predicate Open(campaigns: map<Id, Campaign>, c: Id) {
    c in campaigns && !campaigns[c].deleted && campaigns[c].status in {Draft, Active, Paused}
  }

  predicate LiveTier(tiers: map<Id, GiftTier>, c: Id, t: Id) {
    t in tiers && tiers[t].campaign == c && !tiers[t].deleted
  }

  /** From which status each change is possible, and which status it leads to; nothing else
      of the campaign changes. */
  lemma StatusOnFields(s: Catalogue, c: Id)
    ensures Apply(s, ChangeStatus(c, Pause)).Some?
       <==> c in s.campaigns && !s.campaigns[c].deleted && s.campaigns[c].status == Active
    ensures Apply(s, ChangeStatus(c, Complete)).Some?
       <==> c in s.campaigns && !s.campaigns[c].deleted && s.campaigns[c].status in {Active, Paused}
    ensures Apply(s, ChangeStatus(c, Archive)).Some?
       <==> c in s.campaigns && !s.campaigns[c].deleted && s.campaigns[c].status in {Draft, Completed}
    ensures Apply(s, ChangeStatus(c, Activate)).Some?
        ==> c in s.campaigns && !s.campaigns[c].deleted && s.campaigns[c].status in {Draft, Paused}
    ensures Apply(s, ChangeStatus(c, Pause)).Some? ==>
      Apply(s, ChangeStatus(c, Pause)).value == s.(campaigns := s.campaigns[c := s.campaigns[c].(status := Paused)])
    ensures Apply(s, ChangeStatus(c, Complete)).Some? ==>
      Apply(s, ChangeStatus(c, Complete)).value
      == s.(campaigns := s.campaigns[c := s.campaigns[c].(status := Completed)])
    ensures Apply(s, ChangeStatus(c, Archive)).Some? ==>
      Apply(s, ChangeStatus(c, Archive)).value == s.(campaigns := s.campaigns[c := s.campaigns[c].(status := Archived)])
    ensures Apply(s, ChangeStatus(c, Activate)).Some? ==>
      Apply(s, ChangeStatus(c, Activate)).value == s.(campaigns := s.campaigns[c := s.campaigns[c].(status := Active)])
  {
  }

  predicate ActiveTier(tiers: map<Id, GiftTier>, c: Id, t: Id) { LiveTier(tiers, c, t) && tiers[t].active }

  /** A draft or paused campaign can be activated exactly when its dates are in order and its
      active tiers, of which there must be one, have its currency and different amounts. */
  lemma ActivateOnFields(s: Catalogue, c: Id)
    ensures Apply(s, ChangeStatus(c, Activate)).Some? <==>
      && c in s.campaigns && !s.campaigns[c].deleted && s.campaigns[c].status in {Draft, Paused}
      && s.campaigns[c].startDate <= s.campaigns[c].endDate
      && (exists t :: ActiveTier(s.tiers, c, t))
      && (forall t :: ActiveTier(s.tiers, c, t) ==> s.tiers[t].currency == s.campaigns[c].currency)
      && forall t, u :: ActiveTier(s.tiers, c, t) && ActiveTier(s.tiers, c, u) && t != u ==>
           s.tiers[t].required != s.tiers[u].required
  {
    var ids := ActiveIds(s.tiers, c);
    forall t ensures t in ids <==> ActiveTier(s.tiers, c, t) {
    }
    if ids != {} {
      var t :| t in ids;
    }
  }

  /** Which errors a refused status change may raise. */
  lemma StatusErrors(s: Catalogue, c: Id, change: StatusChange)
    ensures var errors := Refusals(s, ChangeStatus(c, change));
      var live := c in s.campaigns && !s.campaigns[c].deleted;
      var inOrder := live && s.campaigns[c].status in match change {
        case Activate => {Draft, Paused}
        case Pause => {Active}
        case Complete => {Active, Paused}
        case Archive => {Draft, Completed}
      };
      var checked := inOrder && change == Activate;
      var dated := checked && s.campaigns[c].startDate <= s.campaigns[c].endDate;
      && (CampaignNotFound in errors <==> !live)
      && (WrongStatus in errors <==> live && !inOrder)
      && (BadDateRange in errors <==> checked && !dated)
      && (NoActiveTiers in errors <==> dated && forall t :: !ActiveTier(s.tiers, c, t))
      && (TierCurrencyDiffers in errors <==>
            dated && exists t :: ActiveTier(s.tiers, c, t) && s.tiers[t].currency != s.campaigns[c].currency)
      && (DuplicateAmount in errors <==>
            dated && exists t, u :: ActiveTier(s.tiers, c, t) && ActiveTier(s.tiers, c, u) && t != u
                                    && s.tiers[t].required == s.tiers[u].required)
  {
    var ids := ActiveIds(s.tiers, c);
    forall t ensures t in ids <==> ActiveTier(s.tiers, c, t) {
    }
    if ids != {} {
      var t :| t in ids;
    }
  }

  predicate EditsTiers(op: Op) { op.CreateTier? || op.UpdateTier? || op.DeleteTier? || op.ReorderTiers? }

  /** Which errors a refused edit may raise. */
  lemma EditErrors(s: Catalogue, op: Op)
    requires EditsTiers(op) || op.UpdateCampaign?
    ensures var errors, c := Refusals(s, op), op.c;
      var live := c in s.campaigns && !s.campaigns[c].deleted;
      var named := op.UpdateTier? || op.DeleteTier?;
      && (CampaignNotFound in errors <==> !live)
      && (ArchivedNotEditable in errors <==> live && s.campaigns[c].status == Archived)
      && (CompletedNotEditable in errors <==> live && s.campaigns[c].status == Completed)
      && (TierNotFound in errors <==> Open(s.campaigns, c) && named && !LiveTier(s.tiers, c, op.t))
      && (IncompleteReorder in errors <==>
            Open(s.campaigns, c) && op.ReorderTiers? && !forall t :: t in op.ids <==> LiveTier(s.tiers, c, t))
      && (BadDateRange in errors ==> op.UpdateCampaign?)
      && (NullColumn in errors ==> op.UpdateCampaign? || op.UpdateTier?)
      && (DuplicateAmount in errors ==> op.CreateTier? || op.UpdateTier?)
      && BadCurrency !in errors && WrongStatus !in errors
  {
    if op.ReorderTiers? {
      var named, live := (set t | t in op.ids), LiveTiers(s.tiers, op.c);
      forall t ensures t in op.ids <==> t in named {
      }
      forall t ensures t in live <==> LiveTier(s.tiers, op.c, t) {
      }
    }
  }

  /** A new campaign is a draft with the dates asked for and the currency in capitals;
      claims are allowed as asked for, else as the company has it, else at all. */
  lemma CreateCampaignOnFields(s: Catalogue, c: Id, r: CampaignRequest)
    requires c !in s.campaigns
    ensures Apply(s, CreateCampaign(c, r)).Some? <==> r.startDate <= r.endDate && NormalizeCurrency(r.currency).Some?
    ensures Apply(s, CreateCampaign(c, r)).Some? ==>
      var next := Apply(s, CreateCampaign(c, r)).value;
      && next.tiers == s.tiers && c in next.campaigns && next.campaigns == s.campaigns[c := next.campaigns[c]]
      && var made := next.campaigns[c];
         && made.startDate == r.startDate && made.endDate == r.endDate && made.rules == r.rules
         && made.status == Draft && !made.deleted && Some(made.currency) == NormalizeCurrency(r.currency)
         && (r.allow.Some? ==> made.allowClaims == r.allow.value)
         && (r.allow.None? && r.companyDefault.Some? ==> made.allowClaims == r.companyDefault.value)
         && (r.allow.None? && r.companyDefault.None? ==> made.allowClaims)
  {
  }

  /** An open campaign takes the fields that are given, a null rule set meaning none, unless
      that would end it before it starts or null a column. */
  lemma UpdateCampaignOnFields(s: Catalogue, c: Id, p: CampaignPatch)
    ensures Apply(s, UpdateCampaign(c, p)).Some? <==>
      && Open(s.campaigns, c) && p.startDate != Put(None) && p.endDate != Put(None) && p.allowClaims != Put(None)
      && (if p.startDate.Put? then p.startDate.value.value else s.campaigns[c].startDate)
         <= (if p.endDate.Put? then p.endDate.value.value else s.campaigns[c].endDate)
    ensures Apply(s, UpdateCampaign(c, p)).Some? ==>
      var next, was := Apply(s, UpdateCampaign(c, p)).value, s.campaigns[c];
      && next.tiers == s.tiers && c in next.campaigns && next.campaigns == s.campaigns[c := next.campaigns[c]]
      && var now := next.campaigns[c];
         && now.startDate == (if p.startDate.Put? then p.startDate.value.value else was.startDate)
         && now.endDate == (if p.endDate.Put? then p.endDate.value.value else was.endDate)
         && now.allowClaims == (if p.allowClaims.Put? then p.allowClaims.value.value else was.allowClaims)
         && now.rules == (if p.rules == Keep then was.rules
                          else if p.rules == Put(None) then StoredRules(None, None, None, None, None, None)
                          else p.rules.value.value)
         && now.status == was.status && now.currency == was.currency && now.deleted == was.deleted
  {
  }

  lemma DeleteCampaignOnFields(s: Catalogue, c: Id)
    ensures Apply(s, DeleteCampaign(c)).Some? <==> c in s.campaigns && !s.campaigns[c].deleted
    ensures Apply(s, DeleteCampaign(c)).Some? ==>
      Apply(s, DeleteCampaign(c)).value == s.(campaigns := s.campaigns[c := s.campaigns[c].(deleted := true)])
  {
  }

  /** A tier is added to an open campaign under an amount no live tier of it has; it takes
      the campaign's currency, nothing reserved, and the place after the last. */
  lemma CreateTierOnFields(s: Catalogue, c: Id, t: Id, required: int, mode: StockTrackingMode, stock: Option<int>,
                           active: bool)
    requires t !in s.tiers
    ensures var op := CreateTier(c, t, required, mode, stock, active);
      Apply(s, op).Some? <==>
        Open(s.campaigns, c) && forall u :: LiveTier(s.tiers, c, u) ==> s.tiers[u].required != required
    ensures var op := CreateTier(c, t, required, mode, stock, active);
      Apply(s, op).Some? ==>
        var next := Apply(s, op).value;
        && next.campaigns == s.campaigns && t in next.tiers && next.tiers == s.tiers[t := next.tiers[t]]
        && var made := next.tiers[t];
           && made == GiftTier(c, required, s.campaigns[c].currency, mode, stock, 0, 0, made.sortOrder, active, false)
           && (forall u :: LiveTier(s.tiers, c, u) ==> s.tiers[u].sortOrder < made.sortOrder)
           && (made.sortOrder == 0
               || exists u :: LiveTier(s.tiers, c, u) && s.tiers[u].sortOrder == made.sortOrder - 1)
  {
    TakenIff(s.tiers, c, required, None);
    var ids := LiveTiers(s.tiers, c);
    assert forall u :: u in ids <==> LiveTier(s.tiers, c, u);
  }

  lemma TakenIff(tiers: map<Id, GiftTier>, c: Id, amount: int, except: Option<Id>)
    ensures AmountTaken(tiers, c, amount, except)
       <==> exists u :: LiveTier(tiers, c, u) && tiers[u].required == amount && Some(u) != except
  {
    if AmountTaken(tiers, c, amount, except) {
      var u :| u in LiveTiers(tiers, c) && tiers[u].required == amount && Some(u) != except;
      assert LiveTier(tiers, c, u);
    }
    if u :| LiveTier(tiers, c, u) && tiers[u].required == amount && Some(u) != except {
      assert u in LiveTiers(tiers, c);
    }
  }

  /** A live tier of an open campaign takes the fields that are given, unless another live
      tier has the amount or a column other than the stock would become null. */
  lemma UpdateTierOnFields(s: Catalogue, c: Id, t: Id, p: TierPatch)
    ensures Apply(s, UpdateTier(c, t, p)).Some? <==>
      && Open(s.campaigns, c) && LiveTier(s.tiers, c, t)
      && p.required != Put(None) && p.mode != Put(None) && p.active != Put(None)
      && (p.required.Put? ==>
            forall u :: LiveTier(s.tiers, c, u) && u != t ==> s.tiers[u].required != p.required.value.value)
    ensures Apply(s, UpdateTier(c, t, p)).Some? ==>
      var next, was := Apply(s, UpdateTier(c, t, p)).value, s.tiers[t];
      && next.campaigns == s.campaigns && t in next.tiers && next.tiers == s.tiers[t := next.tiers[t]]
      && next.tiers[t] == GiftTier(
           was.campaign,
           if p.required.Put? then p.required.value.value else was.required,
           was.currency,
           if p.mode.Put? then p.mode.value.value else was.mode,
           if p.stock.Put? then p.stock.value else was.stock,
           was.reserved, was.fulfilled, was.sortOrder,
           if p.active.Put? then p.active.value.value else was.active,
           was.deleted)
  {
    if p.required.Put? && p.required.value.Some? {
      TakenIff(s.tiers, c, p.required.value.value, Some(t));
    }
  }

  lemma DeleteTierOnFields(s: Catalogue, c: Id, t: Id)
    ensures Apply(s, DeleteTier(c, t)).Some? <==> Open(s.campaigns, c) && LiveTier(s.tiers, c, t)
    ensures Apply(s, DeleteTier(c, t)).Some? ==>
      Apply(s, DeleteTier(c, t)).value == s.(tiers := s.tiers[t := s.tiers[t].(active := false, deleted := true)])
  {
  }

  /** A request to reorder must name exactly the live tiers of an open campaign. */
  lemma ReorderOnFields(s: Catalogue, c: Id, ids: seq<Id>)
    ensures Apply(s, ReorderTiers(c, ids)).Some?
       <==> Open(s.campaigns, c) && forall t :: t in ids <==> LiveTier(s.tiers, c, t)
    ensures Apply(s, ReorderTiers(c, ids)).Some? ==>
      Apply(s, ReorderTiers(c, ids)).value == s.(tiers := Reordered(s.tiers, ids))
  {
    var named := set t | t in ids;
    assert forall t :: t in named <==> t in ids;
    assert forall t :: t in LiveTiers(s.tiers, c) <==> LiveTier(s.tiers, c, t);
    if forall t :: t in ids <==> LiveTier(s.tiers, c, t) {
      assert named == LiveTiers(s.tiers, c);
    }
  }

  /** Each tier named takes the last position it is named at, and no other row changes. */
  lemma ReorderedOnFields(tiers: map<Id, GiftTier>, ids: seq<Id>, t: Id)
    requires t in tiers
    ensures t in Reordered(tiers, ids)
    ensures t !in ids ==> Reordered(tiers, ids)[t] == tiers[t]
    ensures forall i :: 0 <= i < |ids| && ids[i] == t && t !in ids[i + 1..] ==>
      Reordered(tiers, ids)[t] == tiers[t].(sortOrder := i)
  {
    forall i | 0 <= i < |ids| && ids[i] == t && t !in ids[i + 1..] ensures LastIndex(ids, t) == i {
      var j := LastIndex(ids, t);
    }
  }

  // ----- the tier set is frozen -----

  predicate Frozen(s: Catalogue, c: Id) {
    c in s.campaigns && (s.campaigns[c].status == Completed || s.campaigns[c].status == Archived)
  }

  /** The tiers of a campaign without the stock counters. */
  function TierSet(tiers: map<Id, GiftTier>, c: Id): map<Id, GiftTier> {
    map t | t in tiers && tiers[t].campaign == c :: tiers[t].(reserved := 0, fulfilled := 0)
  }

  lemma EditElsewhere(tiers: map<Id, GiftTier>, t: Id, tier: GiftTier, c: Id)
    requires if t in tiers && tiers[t].campaign == c
             then tier == tiers[t].(reserved := tier.reserved, fulfilled := tier.fulfilled)
             else tier.campaign != c
    ensures TierSet(tiers[t := tier], c) == TierSet(tiers, c)
  {
  }

  lemma ReorderElsewhere(tiers: map<Id, GiftTier>, ids: seq<Id>, c: Id)
    requires forall t :: t in ids && t in tiers ==> tiers[t].campaign != c
    ensures TierSet(Reordered(tiers, ids), c) == TierSet(tiers, c)
  {
  }

  lemma StepKeepsFrozen(s: Catalogue, c: Id, op: Op)
    requires Frozen(s, c)
    ensures Frozen(Step(s, op), c) && TierSet(Step(s, op).tiers, c) == TierSet(s.tiers, c)
  {
    if Apply(s, op).Some? {
      match op
      case CreateTier(d, t, _, _, _, _) => EditElsewhere(s.tiers, t, Step(s, op).tiers[t], c);
      case UpdateTier(d, t, _) => EditElsewhere(s.tiers, t, Step(s, op).tiers[t], c);
      case DeleteTier(d, t) => EditElsewhere(s.tiers, t, Step(s, op).tiers[t], c);
      case ReorderTiers(d, ids) =>
        assert forall t :: t in ids ==> t in LiveTiers(s.tiers, d);
        ReorderElsewhere(s.tiers, ids, c);
      case Stock(t, _, _) => EditElsewhere(s.tiers, t, Step(s, op).tiers[t], c);
      case _ =>
    }
  }

  /** Once a campaign is completed or archived its tiers never change again, whatever is
      called, except for the counters the claims keep. */
  lemma {:induction false} RunKeepsFrozen(s: Catalogue, c: Id, ops: seq<Op>)
    requires Frozen(s, c)
    ensures Frozen(Run(s, ops), c) && TierSet(Run(s, ops).tiers, c) == TierSet(s.tiers, c)
  {
    if ops == [] {
    } else {
      var front, last := ops[..|ops| - 1], ops[|ops| - 1];
      RunKeepsFrozen(s, c, front);
      StepKeepsFrozen(Run(s, front), c, last);
    }
  }

  // ----- the services -----

  /** A call does what Apply says, and a call that raises leaves the tables alone. */
  ghost predicate Outcome(before: Catalogue, op: Op, r: Result<(), Error>, after: Catalogue) {
    && r.Ok? == Apply(before, op).Some? && after == Step(before, op)
    && (r.Err? ==> r.error in Refusals(before, op))
  }

  method GetCampaign(session: Session, c: Id) returns (r: Result<Campaign, Error>)
    ensures r == if LiveCampaign(session.campaigns, c) then Ok(session.campaigns[c]) else Err(CampaignNotFound)
  {
    if c !in session.campaigns || session.campaigns[c].deleted {
      return Err(CampaignNotFound);
    }
    return Ok(session.campaigns[c]);
  }

  method EnsureCampaignEditable(session: Session, c: Id) returns (r: Result<Campaign, Error>)
    ensures r.Ok? <==> Editable(session.campaigns, c)
    ensures if r.Ok? then r.value == session.campaigns[c] else r.error in EditRefusals(session.campaigns, c)
  {
    r := GetCampaign(session, c);
    if r.Err? {
      return;
    }
    if r.value.status == Archived {
      return Err(ArchivedNotEditable);
    }
    if r.value.status == Completed {
      return Err(CompletedNotEditable);
    }
  }

  /** What has been established about the active tiers read so far. */
  ghost predicate Scanned(tiers: map<Id, GiftTier>, currency: string, read: set<Id>, seenAmounts: set<int>)
    requires read <= tiers.Keys
  {
    && (forall t :: t in read ==> tiers[t].currency == currency)
    && (forall t :: t in read ==> tiers[t].required in seenAmounts)
    && (forall amount :: amount in seenAmounts ==> exists t :: t in read && tiers[t].required == amount)
    && (forall a, b :: a in read && b in read && a != b ==> tiers[a].required != tiers[b].required)
  }

  lemma ScanOne(tiers: map<Id, GiftTier>, currency: string, read: set<Id>, seenAmounts: set<int>, t: Id)
    requires read <= tiers.Keys && t in tiers && t !in read && Scanned(tiers, currency, read, seenAmounts)
    requires tiers[t].currency == currency && tiers[t].required !in seenAmounts
    ensures Scanned(tiers, currency, read + {t}, seenAmounts + {tiers[t].required})
  {
  }

  /** Reads the active tiers one by one and remembers the amounts seen. */
  method ValidateActivation(session: Session, c: Id) returns (r: Result<(), Error>)
    requires c in session.campaigns
    ensures r.Ok? <==> ActivationValid(CatalogueOf(session), c)
    ensures r.Err? ==> r.error in ActivationRefusals(CatalogueOf(session), c)
  {
    var campaign, tiers := session.campaigns[c], session.tiers;
    if campaign.endDate < campaign.startDate {
      return Err(BadDateRange);
    }
    var rest := set t | t in tiers && tiers[t].campaign == c && tiers[t].active && !tiers[t].deleted;
    ghost var all := rest;
    assert all == ActiveIds(tiers, c);
    if rest == {} {
      return Err(NoActiveTiers);
    }
    var seenAmounts: set<int> := {};
    while rest != {}
      invariant rest <= all
      invariant Scanned(tiers, campaign.currency, all - rest, seenAmounts)
    {
      var t :| t in rest;
      if tiers[t].currency != campaign.currency {
        return Err(TierCurrencyDiffers);
      }
      if tiers[t].required in seenAmounts {
        assert exists u :: u in all - rest && tiers[u].required == tiers[t].required;
        return Err(DuplicateAmount);
      }
      ScanOne(tiers, campaign.currency, all - rest, seenAmounts, t);
      assert all - (rest - {t}) == all - rest + {t};
      seenAmounts, rest := seenAmounts + {tiers[t].required}, rest - {t};
    }
    assert all - rest == all;
    return Ok(());
  }

  method ChangeCampaignStatus(session: Session, c: Id, change: StatusChange) returns (r: Result<(), Error>)
    modifies session`campaigns
    ensures Outcome(old(CatalogueOf(session)), ChangeStatus(c, change), r, CatalogueOf(session))
  {
    var campaign := GetCampaign(session, c);
    if campaign.Err? {
      return Err(campaign.error);
    }
    var status := campaign.value.status;
    var next: CampaignStatus;
    match change {
      case Activate =>
        if status != Draft && status != Paused {
          return Err(WrongStatus);
        }
        r := ValidateActivation(session, c);
        if r.Err? {
          return;
        }
        next := Active;
      case Pause =>
        if status != Active {
          return Err(WrongStatus);
        }
        next := Paused;
      case Complete =>
        if status != Active && status != Paused {
          return Err(WrongStatus);
        }
        next := Completed;
      case Archive =>
        if status != Draft && status != Completed {
          return Err(WrongStatus);
        }
        next := Archived;
    }
    session.campaigns := session.campaigns[c := campaign.value.(status := next)];
    return Ok(());
  }

  method EnsureAmountAvailable(session: Session, c: Id, amount: int, except: Option<Id>) returns (r: Result<(), Error>)
    ensures r == if AmountTaken(session.tiers, c, amount, except) then Err(DuplicateAmount) else Ok(())
  {
    var tiers := session.tiers;
    var hits := set t | t in tiers && tiers[t].campaign == c && !tiers[t].deleted
                        && tiers[t].required == amount && Some(t) != except;
    if hits != {} {
      var t :| t in hits;
      assert t in LiveTiers(tiers, c);
      return Err(DuplicateAmount);
    }
    assert forall t :: t in LiveTiers(tiers, c) ==> t !in hits;
    return Ok(());
  }

  /** t is the new row's id. */
  method CreateGiftTier(session: Session, c: Id, t: Id, required: int, mode: StockTrackingMode, stock: Option<int>,
                        active: bool)
    returns (r: Result<(), Error>)
    requires t !in session.tiers
    modifies session`tiers
    ensures Outcome(old(CatalogueOf(session)), CreateTier(c, t, required, mode, stock, active), r, CatalogueOf(session))
  {
    var campaign := EnsureCampaignEditable(session, c);
    if campaign.Err? {
      return Err(campaign.error);
    }
    r := EnsureAmountAvailable(session, c, required, None);
    if r.Err? {
      return;
    }
    var order := NextSortOrder(session, c);
    var tier := GiftTier(c, required, campaign.value.currency, mode, stock, 0, 0, order, active, false);
    session.tiers := session.tiers[t := tier];
  }

  method UpdateGiftTier(session: Session, c: Id, t: Id, p: TierPatch) returns (r: Result<(), Error>)
    modifies session`tiers
    ensures Outcome(old(CatalogueOf(session)), UpdateTier(c, t, p), r, CatalogueOf(session))
  {
    var campaign := EnsureCampaignEditable(session, c);
    if campaign.Err? {
      return Err(campaign.error);
    }
    if t !in LiveTiers(session.tiers, c) {
      return Err(TierNotFound);
    }
    var tier := session.tiers[t];
    if p.required.Put? && p.required.value.Some? {
      r := EnsureAmountAvailable(session, c, p.required.value.value, Some(t));
      if r.Err? {
        return;
      }
    }
    if PatchNullsColumn(p) {
      return Err(NullColumn);
    }
    if p.required.Put? {
      tier := tier.(required := p.required.value.value);
    }
    if p.mode.Put? {
      tier := tier.(mode := p.mode.value.value);
    }
    if p.stock.Put? {
      tier := tier.(stock := p.stock.value);
    }
    if p.active.Put? {
      tier := tier.(active := p.active.value.value);
    }
    session.tiers := session.tiers[t := tier];
    return Ok(());
  }

  method DeleteGiftTier(session: Session, c: Id, t: Id) returns (r: Result<(), Error>)
    modifies session`tiers
    ensures Outcome(old(CatalogueOf(session)), DeleteTier(c, t), r, CatalogueOf(session))
  {
    var campaign := EnsureCampaignEditable(session, c);
    if campaign.Err? {
      return Err(campaign.error);
    }
    if t !in LiveTiers(session.tiers, c) {
      return Err(TierNotFound);
    }
    session.tiers := session.tiers[t := session.tiers[t].(active := false, deleted := true)];
    return Ok(());
  }

  /** The ids must be the live tiers; one that occurs twice keeps its last position. */
  method ReorderGiftTiers(session: Session, c: Id, ids: seq<Id>) returns (r: Result<(), Error>)
    modifies session`tiers
    ensures Outcome(old(CatalogueOf(session)), ReorderTiers(c, ids), r, CatalogueOf(session))
  {
    var campaign := EnsureCampaignEditable(session, c);
    if campaign.Err? {
      return Err(campaign.error);
    }
    if (set t | t in ids) != LiveTiers(session.tiers, c) {
      return Err(IncompleteReorder);
    }
    ghost var tiers := session.tiers;
    assert forall t :: t in ids ==> t in LiveTiers(tiers, c);
    for i := 0 to |ids|
      invariant session.tiers == Reordered(tiers, ids[..i])
    {
      assert ids[i] in ids;
      ReorderOne(tiers, ids[..i], ids[i]);
      assert ids[..i + 1] == ids[..i] + [ids[i]];
      session.tiers := session.tiers[ids[i] := session.tiers[ids[i]].(sortOrder := i)];
    }
    assert ids[..|ids|] == ids;
    return Ok(());
  }

  lemma ReorderOne(tiers: map<Id, GiftTier>, ids: seq<Id>, t: Id)
    requires t in tiers
    ensures Reordered(tiers, ids + [t])
         == Reordered(tiers, ids)[t := Reordered(tiers, ids)[t].(sortOrder := |ids|)]
  {
  }

  method CreateCampaignRow(session: Session, c: Id, request: CampaignRequest) returns (r: Result<(), Error>)
    requires c !in session.campaigns
    modifies session`campaigns
    ensures Outcome(old(CatalogueOf(session)), CreateCampaign(c, request), r, CatalogueOf(session))
  {
    if request.endDate < request.startDate {
      return Err(BadDateRange);
    }
    var allow := true;
    if request.allow.Some? {
      allow := request.allow.value;
    } else if request.companyDefault.Some? {
      allow := request.companyDefault.value;
    }
    var currency := NormalizeCurrency(request.currency);
    if currency.None? {
      return Err(BadCurrency);
    }
    var campaign := Campaign(request.startDate, request.endDate, Draft, currency.value, request.rules, allow, false);
    session.campaigns := session.campaigns[c := campaign];
    return Ok(());
  }

  method UpdateCampaignRow(session: Session, c: Id, p: CampaignPatch) returns (r: Result<(), Error>)
    modifies session`campaigns
    ensures Outcome(old(CatalogueOf(session)), UpdateCampaign(c, p), r, CatalogueOf(session))
  {
    var campaign := EnsureCampaignEditable(session, c);
    if campaign.Err? {
      return Err(campaign.error);
    }
    if NullIn(p.startDate) || NullIn(p.endDate) {
      return Err(NullColumn);
    }
    var start := Apply1(p.startDate, campaign.value.startDate);
    var end := Apply1(p.endDate, campaign.value.endDate);
    if end < start {
      return Err(BadDateRange);
    }
    if NullIn(p.allowClaims) {
      return Err(NullColumn);
    }
    var row := campaign.value.(startDate := start, endDate := end);
    if p.rules.Put? {
      row := row.(rules := if p.rules.value.None? then NO_RULES else p.rules.value.value);
    }
    if p.allowClaims.Put? {
      row := row.(allowClaims := p.allowClaims.value.value);
    }
    session.campaigns := session.campaigns[c := row];
    return Ok(());
  }

  method DeleteCampaignRow(session: Session, c: Id) returns (r: Result<(), Error>)
    modifies session`campaigns
    ensures Outcome(old(CatalogueOf(session)), DeleteCampaign(c), r, CatalogueOf(session))
  {
    var campaign := GetCampaign(session, c);
    if campaign.Err? {
      return Err(campaign.error);
    }
    session.campaigns := session.campaigns[c := campaign.value.(deleted := true)];
    return Ok(());
  }
}
