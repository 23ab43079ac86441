// Reward claims: a five-state machine per claim over two stock counters per tier.
module Claims {
  import opened Basics
  import opened Models
  import opened Ladder
  import opened Database
  import opened Progress
  import C = Catalogue

  // ----- stock -----

  function Reserve(tier: GiftTier): Option<GiftTier> {
    if tier.mode == Untracked then Some(tier)
    else if tier.mode == Strict && (tier.Available().None? || tier.Available().value <= 0) then None
    else Some(tier.(reserved := tier.reserved + 1))
  }

  function Release(tier: GiftTier): Option<GiftTier> {
    if tier.mode == Untracked then Some(tier)
    else if tier.reserved <= 0 then None
    else Some(tier.(reserved := tier.reserved - 1))
  }

  function FulfillStock(tier: GiftTier): Option<GiftTier> {
    if tier.mode == Untracked then Some(tier)
    else if tier.reserved <= 0 then None
    else Some(tier.(reserved := tier.reserved - 1, fulfilled := tier.fulfilled + 1))
  }

  // ----- the desk -----

  /** What the claim service writes: tier counters, claims, and the claim events. */
  datatype Desk = Desk(tiers: map<Id, GiftTier>, claims: map<Id, RewardClaim>, log: seq<ClaimEvent>)

  /** What it only reads, as other services have left it at the time of a call. */
  datatype World = World(
    company: Id,
    campaigns: map<Id, Campaign>,
    customers: map<Id, Customer>,
    progress: map<(Id, Id), Snapshot>)

  function DeskOf(session: Session): Desk
    reads session
  {
    Desk(session.tiers, session.claims, session.claimLog)
  }

  function WorldOf(session: Session): World
    reads session
  {
    World(session.company, session.campaigns, session.customers, session.progress)
  }

  predicate IsOpen(status: ClaimStatus) { status == Pending || status == Approved }

  function OpenClaims(claims: map<Id, RewardClaim>, c: Id, k: Id): set<Id> {
    set i | i in claims && claims[i].campaign == c && claims[i].customer == k && IsOpen(claims[i].status)
  }

  predicate TierUsable(tiers: map<Id, GiftTier>, c: Id, t: Id) {
    t in tiers && tiers[t].campaign == c && !tiers[t].deleted && tiers[t].active
  }

  predicate Claimable(d: Desk, w: World, c: Id, k: Id, t: Id)
    requires c in w.campaigns && t in d.tiers
  {
    && w.campaigns[c].allowClaims
    && (w.campaigns[c].status == Active || w.campaigns[c].status == Completed)
    && (c, k) in w.progress
    && w.progress[(c, k)].total >= d.tiers[t].required
    && OpenClaims(d.claims, c, k) == {}
  }

  datatype Op =
    | Create(world: World, id: Id, c: Id, k: Id, t: Id)
    | Approve(id: Id, user: Id)
    | Reject(id: Id, user: Id)
    | Fulfill(id: Id, user: Id)
    | Cancel(id: Id, admin: Option<Id>, customer: Option<Id>)
    | Edit(campaigns: map<Id, Campaign>, edit: C.Op)

  /** A claim moved to a new row, with its tier and its event. */
  function Moved(d: Desk, id: Id, claim: RewardClaim, tier: GiftTier): Desk {
    Desk(d.tiers[claim.tier := tier], d.claims[id := claim], d.log + [ClaimEvent(id, claim.status)])
  }

  /** Why a customer may not claim now, the first reason found. */
  function ClaimRefusal(d: Desk, w: World, c: Id, k: Id, t: Id): Option<Error>
    requires c in w.campaigns && t in d.tiers
  {
    if !w.campaigns[c].allowClaims then Some(ClaimsDisabled)
    else if w.campaigns[c].status != Active && w.campaigns[c].status != Completed then Some(CampaignNotClaimable)
    else if (c, k) !in w.progress then Some(ProgressMissing)
    else if w.progress[(c, k)].total < d.tiers[t].required then Some(TierNotReached)
    else if OpenClaims(d.claims, c, k) != {} then Some(ActiveClaimExists)
    else None
  }

  /** The error a call raises, if it raises. */
  function Refusal(d: Desk, op: Op): Option<Error> {
    match op
    case Create(w, _, c, k, t) =>
      if !LiveCustomer(w.customers, w.company, k) then Some(CustomerNotFound)
      else if !LiveCampaign(w.campaigns, c) then Some(CampaignNotFound)
      else if !TierUsable(d.tiers, c, t) then Some(TierNotFound)
      else ClaimRefusal(d, w, c, k, t)
    case Approve(id, _) =>
      if id !in d.claims then Some(ClaimNotFound)
      else if d.claims[id].status != Pending then Some(NotPending)
      else StockRefusal(d, d.claims[id], Approved)
    case Reject(id, _) =>
      if id !in d.claims then Some(ClaimNotFound)
      else if !IsOpen(d.claims[id].status) then Some(NotOpen)
      else if d.claims[id].status == Approved then StockRefusal(d, d.claims[id], Rejected)
      else None
    case Fulfill(id, _) =>
      if id !in d.claims then Some(ClaimNotFound)
      else if d.claims[id].status != Approved then Some(NotApproved)
      else StockRefusal(d, d.claims[id], Fulfilled)
    case Cancel(id, _, customer) =>
      if id !in d.claims || (customer.Some? && d.claims[id].customer != customer.value) then Some(ClaimNotFound)
      else if !IsOpen(d.claims[id].status) then Some(NotOpen)
      else if customer.Some? && d.claims[id].status != Pending then Some(CustomerMayCancelPendingOnly)
      else if d.claims[id].status == Approved then StockRefusal(d, d.claims[id], CancelledClaim)
      else None
    case Edit(_, _) => None
  }

  /** The error of the tier lookup or of the stock helper behind a change of status. */
  function StockRefusal(d: Desk, claim: RewardClaim, to: ClaimStatus): Option<Error> {
    if !TierUsable(d.tiers, claim.campaign, claim.tier) then Some(TierNotFound)
    else if to == Approved then if Reserve(d.tiers[claim.tier]).None? then Some(OutOfStock) else None
    else if Release(d.tiers[claim.tier]).None? then Some(ReservationInconsistent)
    else None
  }

  /** What a call does when nothing refuses it. */
  ghost function Effect(d: Desk, op: Op): Desk
    requires Refusal(d, op).None?
  {
    match op
    case Create(_, id, c, k, t) => Moved(d, id, RewardClaim(c, k, t, Pending, None, None, None), d.tiers[t])
    case Approve(id, user) =>
      var claim := d.claims[id];
      Moved(d, id, claim.(status := Approved, decidedBy := Some(user)), Reserve(d.tiers[claim.tier]).value)
    case Reject(id, user) => Withdrawn(d, id, d.claims[id].(status := Rejected, decidedBy := Some(user)))
    case Fulfill(id, user) =>
      var claim := d.claims[id];
      Moved(d, id, claim.(status := Fulfilled, fulfilledBy := Some(user)), FulfillStock(d.tiers[claim.tier]).value)
    case Cancel(id, admin, _) => Withdrawn(d, id, d.claims[id].(status := CancelledClaim, cancelledBy := admin))
    case Edit(campaigns, edit) => d.(tiers := C.Step(C.Catalogue(campaigns, d.tiers), edit).tiers)
  }

  /** An open claim ends as row; a reservation is given back. */
  function Withdrawn(d: Desk, id: Id, row: RewardClaim): Desk
    requires id in d.claims && row.tier == d.claims[id].tier
    requires d.claims[id].status == Approved ==> row.tier in d.tiers && Release(d.tiers[row.tier]).Some?
  {
    if d.claims[id].status == Approved then Moved(d, id, row, Release(d.tiers[row.tier]).value)
    else Desk(d.tiers, d.claims[id := row], d.log + [ClaimEvent(id, row.status)])
  }

  /** The effect of one call, or None when it raises and the request is rolled back. A
      claim is created under an id that is not in use. */
  ghost function Apply(d: Desk, op: Op): Option<Desk> {
    if Refusal(d, op).Some? || (op.Create? && op.id in d.claims) then None else Some(Effect(d, op))
  }

  ghost function Step(d: Desk, op: Op): Desk {
    match Apply(d, op)
    case None => d
    case Some(next) => next
  }

  ghost function Run(d: Desk, ops: seq<Op>): Desk {
    if ops == [] then d else Step(Run(d, ops[..|ops| - 1]), ops[|ops| - 1])
  }

  const EMPTY := Desk(map[], map[], [])

  /** Edits come from the catalogue; the counters are the claim service's own. */
  predicate Proper(op: Op) { op.Edit? ==> !op.edit.Stock? }

  ghost predicate ProperRun(ops: seq<Op>) { forall i :: 0 <= i < |ops| ==> Proper(ops[i]) }

  // ----- counting claims -----

  function ClaimsAt(d: Desk, t: Id, status: ClaimStatus): set<Id> { WithStatus(d.claims, t, status) }

  function WithStatus(claims: map<Id, RewardClaim>, t: Id, status: ClaimStatus): set<Id> {
    set i | i in claims && claims[i].tier == t && claims[i].status == status
  }

  /** Every claim is for a tier of its campaign. */
  ghost predicate Linked(d: Desk) {
    forall i :: i in d.claims ==>
      d.claims[i].tier in d.tiers && d.tiers[d.claims[i].tier].campaign == d.claims[i].campaign
  }

  ghost predicate OneOpenClaim(d: Desk) {
    forall i, j :: i in d.claims && j in d.claims && i != j
      && d.claims[i].campaign == d.claims[j].campaign && d.claims[i].customer == d.claims[j].customer
      ==> !IsOpen(d.claims[i].status) || !IsOpen(d.claims[j].status)
  }

  /** reserved counts the approved claims of a tracked tier and is 0 otherwise. */
  ghost predicate ReservedCounts(d: Desk, t: Id) {
    t in d.tiers ==>
      d.tiers[t].reserved == if d.tiers[t].mode == Untracked then 0 else |ClaimsAt(d, t, Approved)|
  }

  /** fulfilled counts the fulfilled claims of a tracked tier and is 0 otherwise. */
  ghost predicate FulfilledCounts(d: Desk, t: Id) {
    t in d.tiers ==>
      d.tiers[t].fulfilled == if d.tiers[t].mode == Untracked then 0 else |ClaimsAt(d, t, Fulfilled)|
  }

  /** What an edit may do to a row that exists: anything but campaign and counters. */
  lemma EditKeepsCounters(d: Desk, op: Op, t: Id)
    requires op.Edit? && Proper(op)
    ensures t in d.tiers ==>
      (t in Step(d, op).tiers
       && Step(d, op).tiers[t].reserved == d.tiers[t].reserved
       && Step(d, op).tiers[t].fulfilled == d.tiers[t].fulfilled
       && Step(d, op).tiers[t].campaign == d.tiers[t].campaign)
    ensures t !in d.tiers && t in Step(d, op).tiers ==>
      Step(d, op).tiers[t].reserved == 0 && Step(d, op).tiers[t].fulfilled == 0
  {
  }

  /** The shape of every call that succeeds: one claim is written, for one tier, and that
      tier's counters move with the claim's status. */
  predicate Transition(d: Desk, next: Desk, id: Id, row: RewardClaim, tier: GiftTier) {
    && next.claims == d.claims[id := row]
    && next.tiers == d.tiers[row.tier := tier]
    && next.log == d.log + [ClaimEvent(id, row.status)]
    && row.tier in d.tiers
    && (id in d.claims ==> d.claims[id] == row.(status := d.claims[id].status, decidedBy := d.claims[id].decidedBy,
                                                fulfilledBy := d.claims[id].fulfilledBy,
                                                cancelledBy := d.claims[id].cancelledBy))
    && var was := d.tiers[row.tier];
       var from, to := StatusOf(d, id), row.status;
       var tracked := was.mode != Untracked;
       && LegalMove(from, to)
       && tier == was.(
            reserved := was.reserved + (if tracked && to == Approved then 1 else 0)
                                     - (if tracked && from == Some(Approved) then 1 else 0),
            fulfilled := was.fulfilled + if tracked && to == Fulfilled then 1 else 0)
       && (was.mode == Strict && to == Approved ==> was.Available().Some? && was.Available().value > 0)
  }

  function StatusOf(d: Desk, id: Id): Option<ClaimStatus> {
    if id in d.claims then Some(d.claims[id].status) else None
  }

  predicate LegalMove(from: Option<ClaimStatus>, to: ClaimStatus) {
    match from
    case None => to == Pending
    case Some(Pending) => to == Approved || to == Rejected || to == CancelledClaim
    case Some(Approved) => to == Rejected || to == Fulfilled || to == CancelledClaim
    case Some(_) => false
  }

  lemma EveryCallIsATransition(d: Desk, op: Op) returns (id: Id, row: RewardClaim, tier: GiftTier)
    requires Linked(d) && !op.Edit? && Apply(d, op).Some?
    ensures Transition(d, Step(d, op), id, row, tier)
    ensures op.Create? ==>
      (id !in d.claims && OpenClaims(d.claims, row.campaign, row.customer) == {}
       && d.tiers[row.tier].campaign == row.campaign)
    ensures !op.Create? ==> id in d.claims
  {
    id := op.id;
    var next := Step(d, op);
    row := next.claims[id];
    tier := next.tiers[row.tier];
    assert d.tiers[row.tier := d.tiers[row.tier]] == d.tiers;
  }

  // ----- what every step keeps -----

  ghost predicate Inv(d: Desk) { Linked(d) && OneOpenClaim(d) && LogMatches(d) }

  /** The status the events alone tell for a claim. */
  function ReplayStatus(log: seq<ClaimEvent>, id: Id): Option<ClaimStatus> {
    if log == [] then None
    else if log[|log| - 1].claim == id then Some(log[|log| - 1].status)
    else ReplayStatus(log[..|log| - 1], id)
  }

  /** Every event is a legal move from where its claim stood, and the events replay to
      the stored statuses. */
  ghost predicate LogMatches(d: Desk) {
    && (forall i :: 0 <= i < |d.log| ==> LegalMove(ReplayStatus(d.log[..i], d.log[i].claim), d.log[i].status))
    && (forall id :: ReplayStatus(d.log, id) == StatusOf(d, id))
  }

  lemma StepKeepsInv(d: Desk, op: Op)
    requires Inv(d) && Proper(op)
    ensures Inv(Step(d, op))
  {
    if op.Edit? {
      EditKeepsInv(d, op);
    } else if Apply(d, op).Some? {
      var next := Step(d, op);
      var id, row, tier := EveryCallIsATransition(d, op);
      TransitionKeepsLog(d, next, id, row, tier);
      TransitionKeepsOneOpen(d, next, id, row, tier);
    }
  }

  lemma EditKeepsInv(d: Desk, op: Op)
    requires Inv(d) && Proper(op) && op.Edit?
    ensures Inv(Step(d, op))
  {
    var next := Step(d, op);
    forall i | i in d.claims
      ensures next.claims[i].tier in next.tiers && next.tiers[next.claims[i].tier].campaign == next.claims[i].campaign
    {
      EditKeepsCounters(d, op, d.claims[i].tier);
    }
  }

  lemma TransitionKeepsOneOpen(d: Desk, next: Desk, id: Id, row: RewardClaim, tier: GiftTier)
    requires Transition(d, next, id, row, tier) && OneOpenClaim(d)
    requires id !in d.claims ==> OpenClaims(d.claims, row.campaign, row.customer) == {}
    ensures OneOpenClaim(next)
  {
    forall i | i in d.claims && i != id && d.claims[i].campaign == row.campaign && d.claims[i].customer == row.customer
      ensures !IsOpen(d.claims[i].status) || !IsOpen(row.status)
    {
      assert id !in d.claims ==> i !in OpenClaims(d.claims, row.campaign, row.customer);
    }
  }

  lemma TransitionKeepsLog(d: Desk, next: Desk, id: Id, row: RewardClaim, tier: GiftTier)
    requires Transition(d, next, id, row, tier) && LogMatches(d)
    ensures LogMatches(next)
  {
    assert next.log[..|d.log|] == d.log;
    forall i | 0 <= i < |d.log| ensures next.log[..i] == d.log[..i] {
    }
  }

  lemma {:induction false} RunKeepsInv(d: Desk, ops: seq<Op>)
    requires Inv(d) && ProperRun(ops)
    ensures Inv(Run(d, ops))
  {
    if ops == [] {
    } else {
      RunKeepsInv(d, ops[..|ops| - 1]);
      StepKeepsInv(Run(d, ops[..|ops| - 1]), ops[|ops| - 1]);
    }
  }

  // ----- the life of a claim -----

  /** A claim that is rejected, fulfilled or cancelled never changes again. */
  lemma {:induction false} TerminalIsAbsorbing(d: Desk, ops: seq<Op>, id: Id)
    requires Inv(d) && ProperRun(ops) && id in d.claims && !IsOpen(d.claims[id].status)
    ensures id in Run(d, ops).claims && Run(d, ops).claims[id] == d.claims[id]
  {
    if ops == [] {
    } else {
      var front, last := ops[..|ops| - 1], ops[|ops| - 1];
      TerminalIsAbsorbing(d, front, id);
      RunKeepsInv(d, front);
      if !last.Edit? && Apply(Run(d, front), last).Some? {
        var _, _, _ := EveryCallIsATransition(Run(d, front), last);
      }
    }
  }

  /** Every fulfilled claim was approved earlier: the log says so. */
  lemma FulfilledWasApproved(d: Desk, id: Id)
    requires LogMatches(d) && id in d.claims && d.claims[id].status == Fulfilled
    ensures exists i, j ::
      0 <= i < j < |d.log| && d.log[i] == ClaimEvent(id, Approved) && d.log[j] == ClaimEvent(id, Fulfilled)
  {
    var j := LastEvent(d.log, id, Fulfilled);
    var i := LastEvent(d.log[..j], id, Approved);
  }

  lemma {:induction false} LastEvent(log: seq<ClaimEvent>, id: Id, status: ClaimStatus) returns (i: nat)
    requires ReplayStatus(log, id) == Some(status)
    ensures i < |log| && log[i] == ClaimEvent(id, status)
  {
    if log[|log| - 1].claim == id {
      i := |log| - 1;
    } else {
      i := LastEvent(log[..|log| - 1], id, status);
    }
  }

  /** The lookup of a customer's open claim never finds two. */
  lemma LookupFindsAtMostOne(d: Desk, c: Id, k: Id)
    requires OneOpenClaim(d)
    ensures |OpenClaims(d.claims, c, k)| <= 1
  {
    var open := OpenClaims(d.claims, c, k);
    if open != {} {
      var i :| i in open;
      assert open == {i} by {
        forall j | j in open ensures j == i {
        }
      }
    }
  }

  // ----- the calls on the columns of the rows -----

  /** Exactly when a customer may claim, and the claim that is made. */
  lemma CreateOnFields(d: Desk, w: World, id: Id, c: Id, k: Id, t: Id)
    requires id !in d.claims
    ensures Apply(d, Create(w, id, c, k, t)).Some? <==>
      && k in w.customers && w.customers[k].company == w.company && !w.customers[k].deleted
      && c in w.campaigns && !w.campaigns[c].deleted && w.campaigns[c].allowClaims
      && (w.campaigns[c].status == Active || w.campaigns[c].status == Completed)
      && t in d.tiers && d.tiers[t].campaign == c && d.tiers[t].active && !d.tiers[t].deleted
      && (c, k) in w.progress && w.progress[(c, k)].total >= d.tiers[t].required
      && forall i :: i in d.claims && d.claims[i].campaign == c && d.claims[i].customer == k ==>
           d.claims[i].status != Pending && d.claims[i].status != Approved
    ensures Apply(d, Create(w, id, c, k, t)).Some? ==>
      Apply(d, Create(w, id, c, k, t)).value
      == Desk(d.tiers, d.claims[id := RewardClaim(c, k, t, Pending, None, None, None)],
              d.log + [ClaimEvent(id, Pending)])
  {
    NoOpenClaimIff(d.claims, c, k);
    assert t in d.tiers ==> d.tiers[t := d.tiers[t]] == d.tiers;
  }

  lemma NoOpenClaimIff(claims: map<Id, RewardClaim>, c: Id, k: Id)
    ensures OpenClaims(claims, c, k) == {}
       <==> forall i :: i in claims && claims[i].campaign == c && claims[i].customer == k ==>
              claims[i].status != Pending && claims[i].status != Approved
  {
    var open := OpenClaims(claims, c, k);
    if open == {} {
      forall i | i in claims && claims[i].campaign == c && claims[i].customer == k
        ensures claims[i].status != Pending && claims[i].status != Approved
      {
        assert i !in open;
      }
    } else {
      var i :| i in open;
    }
  }

  /** Exactly when a claim is approved: it is pending, its tier is live, and a strict tier
      has a unit left. A tracked tier then reserves one. */
  lemma ApproveOnFields(d: Desk, id: Id, user: Id)
    requires Linked(d)
    ensures Apply(d, Approve(id, user)).Some? <==>
      && id in d.claims && d.claims[id].status == Pending
      && var tier := d.tiers[d.claims[id].tier];
         && tier.active && !tier.deleted
         && (tier.mode == Strict ==> tier.stock.Some? && tier.stock.value - tier.reserved - tier.fulfilled > 0)
    ensures Apply(d, Approve(id, user)).Some? ==>
      var next, claim := Apply(d, Approve(id, user)).value, d.claims[id];
      && next.claims == d.claims[id := RewardClaim(claim.campaign, claim.customer, claim.tier, Approved, Some(user),
                                                   claim.fulfilledBy, claim.cancelledBy)]
      && next.tiers == (if d.tiers[claim.tier].mode == Untracked then d.tiers
                        else d.tiers[claim.tier := d.tiers[claim.tier].(reserved := d.tiers[claim.tier].reserved + 1)])
      && next.log == d.log + [ClaimEvent(id, Approved)]
  {
    assert id in d.claims ==> d.tiers[d.claims[id].tier := d.tiers[d.claims[id].tier]] == d.tiers;
  }

  /** Exactly when a claim is fulfilled: it is approved, its tier is live, and a tracked
      tier has a reservation, which becomes a fulfilled unit. */
  lemma FulfillOnFields(d: Desk, id: Id, user: Id)
    requires Linked(d)
    ensures Apply(d, Fulfill(id, user)).Some? <==>
      && id in d.claims && d.claims[id].status == Approved
      && var tier := d.tiers[d.claims[id].tier];
         tier.active && !tier.deleted && (tier.mode != Untracked ==> tier.reserved > 0)
    ensures Apply(d, Fulfill(id, user)).Some? ==>
      var next, claim := Apply(d, Fulfill(id, user)).value, d.claims[id];
      var tier := d.tiers[claim.tier];
      && next.claims == d.claims[id := RewardClaim(claim.campaign, claim.customer, claim.tier, Fulfilled,
                                                   claim.decidedBy, Some(user), claim.cancelledBy)]
      && next.tiers == (if tier.mode == Untracked then d.tiers
                        else d.tiers[claim.tier := tier.(reserved := tier.reserved - 1,
                                                         fulfilled := tier.fulfilled + 1)])
      && next.log == d.log + [ClaimEvent(id, Fulfilled)]
  {
    assert id in d.claims ==> d.tiers[d.claims[id].tier := d.tiers[d.claims[id].tier]] == d.tiers;
  }

  /** What ending an open claim as row does: an approved claim of a tracked tier gives its
      reservation back. */
  ghost predicate Ended(d: Desk, next: Desk, id: Id, row: RewardClaim)
    requires id in d.claims && row.tier in d.tiers
  {
    var tier := d.tiers[row.tier];
    && next.claims == d.claims[id := row]
    && next.tiers == (if d.claims[id].status == Pending || tier.mode == Untracked then d.tiers
                      else d.tiers[row.tier := tier.(reserved := tier.reserved - 1)])
    && next.log == d.log + [ClaimEvent(id, row.status)]
  }

  /** A pending claim can always be ended; an approved one while its tier is live and, if
      tracked, has a reservation. */
  predicate CanEnd(d: Desk, id: Id)
    requires id in d.claims && d.claims[id].tier in d.tiers
  {
    var tier := d.tiers[d.claims[id].tier];
    || d.claims[id].status == Pending
    || (d.claims[id].status == Approved && tier.active && !tier.deleted
        && (tier.mode != Untracked ==> tier.reserved > 0))
  }

  lemma RejectOnFields(d: Desk, id: Id, user: Id)
    requires Linked(d)
    ensures Apply(d, Reject(id, user)).Some? <==> id in d.claims && CanEnd(d, id)
    ensures Apply(d, Reject(id, user)).Some? ==>
      var claim := d.claims[id];
      Ended(d, Apply(d, Reject(id, user)).value, id,
            RewardClaim(claim.campaign, claim.customer, claim.tier, Rejected, Some(user), claim.fulfilledBy,
                        claim.cancelledBy))
  {
    assert id in d.claims ==> d.tiers[d.claims[id].tier := d.tiers[d.claims[id].tier]] == d.tiers;
  }

  /** Whose claim may be cancelled: a customer cancels its own pending claim and no other;
      an administrator any claim that can be ended. */
  lemma CancelOnFields(d: Desk, id: Id, admin: Option<Id>, customer: Option<Id>)
    requires Linked(d)
    ensures customer.Some? ==>
      (Apply(d, Cancel(id, admin, customer)).Some?
       <==> id in d.claims && d.claims[id].customer == customer.value && d.claims[id].status == Pending)
    ensures customer.None? ==> (Apply(d, Cancel(id, admin, customer)).Some? <==> id in d.claims && CanEnd(d, id))
    ensures customer.Some? && id in d.claims && d.claims[id].customer != customer.value ==>
      Refusal(d, Cancel(id, admin, customer)) == Some(ClaimNotFound)
    ensures Apply(d, Cancel(id, admin, customer)).Some? ==>
      var claim := d.claims[id];
      Ended(d, Apply(d, Cancel(id, admin, customer)).value, id,
            RewardClaim(claim.campaign, claim.customer, claim.tier, CancelledClaim, claim.decidedBy,
                        claim.fulfilledBy, admin))
  {
    assert id in d.claims ==> d.tiers[d.claims[id].tier := d.tiers[d.claims[id].tier]] == d.tiers;
  }

  predicate TierLive(d: Desk, id: Id)
    requires id in d.claims && d.claims[id].tier in d.tiers
  {
    d.tiers[d.claims[id].tier].active && !d.tiers[d.claims[id].tier].deleted
  }

  /** Which error a refused claim raises, the earlier ones first. */
  lemma CreateErrors(d: Desk, w: World, id: Id, c: Id, k: Id, t: Id)
    ensures var error := Refusal(d, Create(w, id, c, k, t));
      var customer := k in w.customers && w.customers[k].company == w.company && !w.customers[k].deleted;
      var campaign := customer && c in w.campaigns && !w.campaigns[c].deleted;
      var tier := campaign && t in d.tiers && d.tiers[t].campaign == c && d.tiers[t].active && !d.tiers[t].deleted;
      var allowed := tier && w.campaigns[c].allowClaims;
      var claimable := allowed && w.campaigns[c].status in {Active, Completed};
      var counted := claimable && (c, k) in w.progress;
      var reached := counted && d.tiers[t].required <= w.progress[(c, k)].total;
      && (error == Some(CustomerNotFound) <==> !customer)
      && (error == Some(CampaignNotFound) <==> customer && !campaign)
      && (error == Some(TierNotFound) <==> campaign && !tier)
      && (error == Some(ClaimsDisabled) <==> tier && !allowed)
      && (error == Some(CampaignNotClaimable) <==> allowed && !claimable)
      && (error == Some(ProgressMissing) <==> claimable && !counted)
      && (error == Some(TierNotReached) <==> counted && !reached)
      && (error == Some(ActiveClaimExists) <==>
            reached && exists i :: i in d.claims && d.claims[i].campaign == c && d.claims[i].customer == k
                                   && d.claims[i].status in {Pending, Approved})
  {
    NoOpenClaimIff(d.claims, c, k);
  }

  /** Which error a refused approval or fulfilment raises. */
  lemma MoveErrors(d: Desk, id: Id, user: Id)
    requires Linked(d)
    ensures var error := Refusal(d, Approve(id, user));
      && (error == Some(ClaimNotFound) <==> id !in d.claims)
      && (error == Some(NotPending) <==> id in d.claims && d.claims[id].status != Pending)
      && (error == Some(TierNotFound) <==> id in d.claims && d.claims[id].status == Pending && !TierLive(d, id))
      && (error == Some(OutOfStock) <==>
            && id in d.claims && d.claims[id].status == Pending && TierLive(d, id)
            && var tier := d.tiers[d.claims[id].tier];
               tier.mode == Strict && (tier.stock.None? || tier.stock.value <= tier.reserved + tier.fulfilled))
    ensures var error := Refusal(d, Fulfill(id, user));
      && (error == Some(ClaimNotFound) <==> id !in d.claims)
      && (error == Some(NotApproved) <==> id in d.claims && d.claims[id].status != Approved)
      && (error == Some(TierNotFound) <==> id in d.claims && d.claims[id].status == Approved && !TierLive(d, id))
      && (error == Some(ReservationInconsistent) <==>
            && id in d.claims && d.claims[id].status == Approved && TierLive(d, id)
            && d.tiers[d.claims[id].tier].mode != Untracked && d.tiers[d.claims[id].tier].reserved <= 0)
  {
  }

  /** Which error a refused rejection or cancellation raises: a customer is told that
      somebody else's claim is not there. */
  lemma EndErrors(d: Desk, id: Id, user: Id, admin: Option<Id>, customer: Option<Id>)
    requires Linked(d)
    ensures var error := Refusal(d, Reject(id, user));
      && (error == Some(ClaimNotFound) <==> id !in d.claims)
      && (error == Some(NotOpen) <==> id in d.claims && d.claims[id].status !in {Pending, Approved})
      && (error == Some(TierNotFound) <==> id in d.claims && d.claims[id].status == Approved && !TierLive(d, id))
    ensures var error := Refusal(d, Cancel(id, admin, customer));
      var found := id in d.claims && (customer.Some? ==> d.claims[id].customer == customer.value);
      && (error == Some(ClaimNotFound) <==> !found)
      && (error == Some(NotOpen) <==> found && d.claims[id].status !in {Pending, Approved})
      && (error == Some(CustomerMayCancelPendingOnly) <==>
            found && customer.Some? && d.claims[id].status == Approved)
      && (error == Some(TierNotFound) <==>
            found && customer.None? && d.claims[id].status == Approved && !TierLive(d, id))
  {
  }

  /** A call the portal makes for somebody other than customer k, or a catalogue edit. */
  predicate NotFor(op: Op, k: Id) {
    match op
    case Create(_, _, _, customer, _) => customer != k
    case Cancel(_, _, customer) => customer.Some? && customer.value != k
    case Edit(_, _) => true
    case _ => false
  }

  function ClaimsOfCustomer(d: Desk, k: Id): map<Id, RewardClaim> {
    map i | i in d.claims && d.claims[i].customer == k :: d.claims[i]
  }

  /** Whatever other customers do, a customer's claims stay as they are. */
  lemma {:induction false} OthersChangeNothing(d: Desk, ops: seq<Op>, k: Id)
    requires Inv(d) && ProperRun(ops) && forall i :: 0 <= i < |ops| ==> NotFor(ops[i], k)
    ensures ClaimsOfCustomer(Run(d, ops), k) == ClaimsOfCustomer(d, k)
  {
    if ops == [] {
    } else {
      var front, last := ops[..|ops| - 1], ops[|ops| - 1];
      OthersChangeNothing(d, front, k);
      RunKeepsInv(d, front);
      OtherChangesNothing(Run(d, front), last, k);
    }
  }

  lemma OtherChangesNothing(d: Desk, op: Op, k: Id)
    requires Linked(d) && NotFor(op, k)
    ensures ClaimsOfCustomer(Step(d, op), k) == ClaimsOfCustomer(d, k)
  {
    match op
    case Create(w, id, c, other, t) =>
      if id !in d.claims {
        CreateOnFields(d, w, id, c, other, t);
      }
    case Cancel(id, admin, customer) => CancelOnFields(d, id, admin, customer);
    case Edit(_, _) =>
  }

  // ----- conservation of stock -----

  lemma CountAfter(claims: map<Id, RewardClaim>, id: Id, row: RewardClaim, t: Id, status: ClaimStatus)
    requires id in claims ==> claims[id].tier == row.tier
    ensures var was, now := WithStatus(claims, t, status), WithStatus(claims[id := row], t, status);
      |now| == |was| + (if row.tier == t && row.status == status then 1 else 0)
                     - (if id in claims && row.tier == t && claims[id].status == status then 1 else 0)
  {
    SizeAfter(WithStatus(claims, t, status), WithStatus(claims[id := row], t, status), id);
  }

  lemma SizeAfter(was: set<Id>, now: set<Id>, id: Id)
    requires forall i :: i != id ==> (i in was <==> i in now)
    ensures |now| == |was| + (if id in now then 1 else 0) - (if id in was then 1 else 0)
  {
    var others := was - {id};
    assert was == if id in was then others + {id} else others;
    assert now == if id in now then others + {id} else others;
  }

  /** No claim call changes what the two counters count. */
  lemma ClaimCallConserves(d: Desk, op: Op, t: Id)
    requires Linked(d) && !op.Edit?
    ensures ReservedCounts(d, t) ==> ReservedCounts(Step(d, op), t)
    ensures FulfilledCounts(d, t) ==> FulfilledCounts(Step(d, op), t)
  {
    if Apply(d, op).Some? {
      var id, row, tier := EveryCallIsATransition(d, op);
      CountAfter(d.claims, id, row, t, Approved);
      CountAfter(d.claims, id, row, t, Fulfilled);
    }
  }

  lemma NoClaimsYet(d: Desk, t: Id, status: ClaimStatus)
    requires Linked(d) && t !in d.tiers
    ensures ClaimsAt(d, t, status) == {}
  {
  }

  /** The request moves tier t between tracked and untracked stock and will be accepted. */
  ghost predicate SwitchesTracking(d: Desk, op: Op, t: Id) {
    && op.Edit? && op.edit.UpdateTier? && op.edit.t == t && t in d.tiers
    && op.edit.tierPatch.mode.Put? && op.edit.tierPatch.mode.value.Some?
    && (op.edit.tierPatch.mode.value.value == Untracked) != (d.tiers[t].mode == Untracked)
    && C.Refusals(C.Catalogue(op.campaigns, d.tiers), op.edit) == {}
  }

  lemma EditKeepsTrackingIff(d: Desk, op: Op, t: Id)
    requires op.Edit? && Proper(op) && t in d.tiers
    ensures t in Step(d, op).tiers
    ensures (Step(d, op).tiers[t].mode == Untracked) != (d.tiers[t].mode == Untracked) <==> SwitchesTracking(d, op, t)
  {
  }

  /** An edit keeps the count of reserved, or of fulfilled, units exactly when it does not
      switch tracking on or off, or the tier has no claim of the kind counted. */
  lemma EditConservesIff(d: Desk, op: Op, t: Id)
    requires Linked(d) && op.Edit? && Proper(op)
    ensures ReservedCounts(d, t) ==>
      (ReservedCounts(Step(d, op), t) <==> !SwitchesTracking(d, op, t) || ClaimsAt(d, t, Approved) == {})
    ensures FulfilledCounts(d, t) ==>
      (FulfilledCounts(Step(d, op), t) <==> !SwitchesTracking(d, op, t) || ClaimsAt(d, t, Fulfilled) == {})
  {
    EditKeepsCounters(d, op, t);
    assert ClaimsAt(Step(d, op), t, Approved) == ClaimsAt(d, t, Approved);
    assert ClaimsAt(Step(d, op), t, Fulfilled) == ClaimsAt(d, t, Fulfilled);
    if t in d.tiers {
      EditKeepsTrackingIff(d, op, t);
    } else {
      NoClaimsYet(d, t, Approved);
      NoClaimsYet(d, t, Fulfilled);
    }
  }

  /** Tracking is only switched while the tier has no claim of a status. */
  ghost predicate QuietSwitches(d: Desk, ops: seq<Op>, t: Id, status: ClaimStatus) {
    forall i :: 0 <= i < |ops| ==>
      SwitchesTracking(Run(d, ops[..i]), ops[i], t) ==> ClaimsAt(Run(d, ops[..i]), t, status) == {}
  }

  lemma QuietFront(d: Desk, ops: seq<Op>, t: Id, status: ClaimStatus)
    requires ops != [] && QuietSwitches(d, ops, t, status)
    ensures var n := |ops| - 1;
      && QuietSwitches(d, ops[..n], t, status)
      && (SwitchesTracking(Run(d, ops[..n]), ops[n], t) ==> ClaimsAt(Run(d, ops[..n]), t, status) == {})
  {
    var front := ops[..|ops| - 1];
    assert forall i :: 0 <= i < |front| ==> ops[..i] == front[..i] && ops[i] == front[i];
  }

  /** Over every run of claim calls and catalogue edits, on any number of claims and
      tiers: reserved_quantity is the number of approved claims. */
  lemma {:induction false} ReservationsConserved(d: Desk, ops: seq<Op>, t: Id)
    requires Inv(d) && ReservedCounts(d, t) && ProperRun(ops) && QuietSwitches(d, ops, t, Approved)
    ensures ReservedCounts(Run(d, ops), t)
  {
    if ops == [] {
    } else {
      var front, last := ops[..|ops| - 1], ops[|ops| - 1];
      QuietFront(d, ops, t, Approved);
      ReservationsConserved(d, front, t);
      RunKeepsInv(d, front);
      if last.Edit? {
        EditConservesIff(Run(d, front), last, t);
      } else {
        ClaimCallConserves(Run(d, front), last, t);
      }
    }
  }

  /** Likewise fulfilled_quantity is the number of fulfilled claims. */
  lemma {:induction false} FulfilmentsConserved(d: Desk, ops: seq<Op>, t: Id)
    requires Inv(d) && FulfilledCounts(d, t) && ProperRun(ops) && QuietSwitches(d, ops, t, Fulfilled)
    ensures FulfilledCounts(Run(d, ops), t)
  {
    if ops == [] {
    } else {
      var front, last := ops[..|ops| - 1], ops[|ops| - 1];
      QuietFront(d, ops, t, Fulfilled);
      FulfilmentsConserved(d, front, t);
      RunKeepsInv(d, front);
      if last.Edit? {
        EditConservesIff(Run(d, front), last, t);
      } else {
        ClaimCallConserves(Run(d, front), last, t);
      }
    }
  }

  /** No edit of the run switches tracking; soft and strict may be exchanged freely. */
  ghost predicate TrackingFixed(d: Desk, ops: seq<Op>, t: Id) {
    forall i :: 0 <= i < |ops| ==> !SwitchesTracking(Run(d, ops[..i]), ops[i], t)
  }

  /** While tracking stays as it is, both counters are the cardinalities of claim sets; an
      untracked tier keeps both at zero. */
  lemma StockConserved(d: Desk, ops: seq<Op>, t: Id)
    requires Inv(d) && ReservedCounts(d, t) && FulfilledCounts(d, t)
    requires ProperRun(ops) && TrackingFixed(d, ops, t)
    ensures ReservedCounts(Run(d, ops), t) && FulfilledCounts(Run(d, ops), t)
  {
    ReservationsConserved(d, ops, t);
    FulfilmentsConserved(d, ops, t);
  }

  /** The tier is strict in every state of the run in which it exists. */
  ghost predicate StrictThroughout(d: Desk, ops: seq<Op>, t: Id) {
    forall i :: 0 <= i <= |ops| ==> t in Run(d, ops[..i]).tiers ==> Run(d, ops[..i]).tiers[t].mode == Strict
  }

  lemma StrictIsTracked(d: Desk, ops: seq<Op>, t: Id)
    requires ProperRun(ops) && StrictThroughout(d, ops, t)
    ensures TrackingFixed(d, ops, t)
  {
    forall i | 0 <= i < |ops| ensures !SwitchesTracking(Run(d, ops[..i]), ops[i], t) {
      var before := Run(d, ops[..i]);
      assert ops[..i + 1][..i] == ops[..i];
      assert Run(d, ops[..i + 1]) == Step(before, ops[i]);
      if SwitchesTracking(before, ops[i], t) {
        EditKeepsTrackingIff(before, ops[i], t);
      }
    }
  }

  ghost predicate WithinStock(d: Desk, t: Id) {
    t in d.tiers && d.tiers[t].stock.Some? ==> d.tiers[t].reserved + d.tiers[t].fulfilled <= d.tiers[t].stock.value
  }

  /** No edit sets the stock below what is reserved and fulfilled. */
  ghost predicate StockEditsCovered(d: Desk, ops: seq<Op>, t: Id) {
    forall i :: 0 <= i < |ops| ==> ops[i].Edit? ==> WithinStock(Run(d, ops[..i + 1]), t)
  }

  lemma StrictCallStaysWithin(d: Desk, op: Op, t: Id)
    requires Linked(d) && !op.Edit? && WithinStock(d, t) && (t in d.tiers ==> d.tiers[t].mode == Strict)
    ensures WithinStock(Step(d, op), t)
  {
    if Apply(d, op).Some? {
      var id, row, tier := EveryCallIsATransition(d, op);
    }
  }

  /** A tier that is strict throughout is never over-committed: approved and fulfilled
      claims together never exceed its stock. */
  lemma {:induction false} StrictNeverOverCommitted(d: Desk, ops: seq<Op>, t: Id)
    requires Inv(d) && ReservedCounts(d, t) && FulfilledCounts(d, t) && WithinStock(d, t)
    requires ProperRun(ops) && StrictThroughout(d, ops, t) && StockEditsCovered(d, ops, t)
    ensures var s := Run(d, ops);
            WithinStock(s, t)
            && (t in s.tiers && s.tiers[t].stock.Some? ==>
                  |ClaimsAt(s, t, Approved)| + |ClaimsAt(s, t, Fulfilled)| <= s.tiers[t].stock.value)
  {
    StrictIsTracked(d, ops, t);
    StockConserved(d, ops, t);
    assert ops[..|ops|] == ops;
    if ops == [] {
    } else {
      var front, last := ops[..|ops| - 1], ops[|ops| - 1];
      assert forall i :: 0 <= i <= |front| ==> ops[..i] == front[..i];
      assert forall i :: 0 <= i < |front| ==> ops[i] == front[i];
      StrictNeverOverCommitted(d, front, t);
      RunKeepsInv(d, front);
      assert ops[..|front|] == front;
      if !last.Edit? {
        StrictCallStaysWithin(Run(d, front), last, t);
      }
    }
  }

  /** From an empty desk, for a tier whose tracking is never switched: both counters are
      the sizes of claim sets, and a tier that is strict throughout, with covered stock
      edits, is never over-committed. */
  lemma StockAccountsBalance(ops: seq<Op>, t: Id)
    requires ProperRun(ops) && TrackingFixed(EMPTY, ops, t)
    ensures var d := Run(EMPTY, ops);
      && Inv(d) && ReservedCounts(d, t) && FulfilledCounts(d, t)
      && (StrictThroughout(EMPTY, ops, t) && StockEditsCovered(EMPTY, ops, t)
          && t in d.tiers && d.tiers[t].stock.Some? ==>
            |ClaimsAt(d, t, Approved)| + |ClaimsAt(d, t, Fulfilled)| <= d.tiers[t].stock.value)
  {
    RunKeepsInv(EMPTY, ops);
    StockConserved(EMPTY, ops, t);
    if StrictThroughout(EMPTY, ops, t) && StockEditsCovered(EMPTY, ops, t) {
      StrictNeverOverCommitted(EMPTY, ops, t);
    }
  }

  /** While the counters count, an approved claim can be resolved if and only if its tier
      is still active: the "reservation is inconsistent" conflict cannot occur. */
  lemma ApprovedResolvableIff(d: Desk, id: Id, user: Id)
    requires Linked(d) && id in d.claims && d.claims[id].status == Approved && ReservedCounts(d, d.claims[id].tier)
    ensures var tier := d.tiers[d.claims[id].tier];
      && (Apply(d, Fulfill(id, user)).Some? <==> tier.active && !tier.deleted)
      && (Apply(d, Reject(id, user)).Some? <==> tier.active && !tier.deleted)
      && (Apply(d, Cancel(id, Some(user), None)).Some? <==> tier.active && !tier.deleted)
      && (tier.mode != Untracked ==> tier.reserved > 0)
  {
    assert id in ClaimsAt(d, d.claims[id].tier, Approved);
  }

  /** Given an up-to-date snapshot, the threshold check admits exactly the rungs up to and
      including the current tier. */
  lemma ThresholdAdmitsPrefix(row: Snapshot, ladder: seq<Rung>, i: nat)
    requires IsLadder(ladder) && DistinctIds(ladder) && i < |ladder|
    requires row.currentTier == IdOf(Place(row.total, ladder).current)
    ensures row.total >= ladder[i].required
       <==> exists j :: i <= j < |ladder| && row.currentTier == Some(ladder[j].id)
  {
    ReachedIsPrefix(row.total, ladder);
    var k := Reached(row.total, ladder);
    if i < k {
      assert row.currentTier == Some(ladder[k - 1].id);
    }
  }

  // ----- the services -----

  /** A call does what Apply says, and a call that raises leaves the tables alone. */
  ghost predicate Outcome(before: Desk, op: Op, r: Result<(), Error>, after: Desk) {
    && r == (match Refusal(before, op) case None => Ok(()) case Some(e) => Err(e))
    && after == Step(before, op)
  }

  method GetTier(session: Session, c: Id, t: Id) returns (r: Result<GiftTier, Error>)
    ensures r.Ok? <==> TierUsable(session.tiers, c, t)
    ensures r.Ok? ==> r.value == session.tiers[t]
    ensures r.Err? ==> r.error == TierNotFound
  {
    if t !in session.tiers || session.tiers[t].campaign != c || session.tiers[t].deleted || !session.tiers[t].active {
      return Err(TierNotFound);
    }
    return Ok(session.tiers[t]);
  }

  method EnsureClaimable(session: Session, c: Id, k: Id, t: Id) returns (r: Result<(), Error>)
    requires c in session.campaigns && t in session.tiers
    ensures r.Ok? <==> Claimable(DeskOf(session), WorldOf(session), c, k, t)
    ensures r == match ClaimRefusal(DeskOf(session), WorldOf(session), c, k, t) {
      case None => Ok(())
      case Some(e) => Err(e)
    }
  {
    var campaign := session.campaigns[c];
    if !campaign.allowClaims {
      return Err(ClaimsDisabled);
    }
    if campaign.status != Active && campaign.status != Completed {
      return Err(CampaignNotClaimable);
    }
    if (c, k) !in session.progress {
      return Err(ProgressMissing);
    }
    if session.progress[(c, k)].total < session.tiers[t].required {
      return Err(TierNotReached);
    }
    if OpenClaims(session.claims, c, k) != {} {
      return Err(ActiveClaimExists);
    }
    return Ok(());
  }

  method ReserveStock(session: Session, t: Id) returns (r: Result<(), Error>)
    requires t in session.tiers
    modifies session`tiers
    ensures r == if Reserve(old(session.tiers[t])).Some? then Ok(()) else Err(OutOfStock)
    ensures session.tiers == if r.Ok? then old(session.tiers)[t := Reserve(old(session.tiers[t])).value]
                             else old(session.tiers)
  {
    var tier := session.tiers[t];
    if tier.mode == Untracked {
      return Ok(());
    }
    if tier.mode == Strict {
      var available := tier.Available();
      if available.None? || available.value <= 0 {
        return Err(OutOfStock);
      }
    }
    session.tiers := session.tiers[t := tier.(reserved := tier.reserved + 1)];
    return Ok(());
  }

  method ReleaseReservedStock(session: Session, t: Id) returns (r: Result<(), Error>)
    requires t in session.tiers
    modifies session`tiers
    ensures r == if Release(old(session.tiers[t])).Some? then Ok(()) else Err(ReservationInconsistent)
    ensures session.tiers == if r.Ok? then old(session.tiers)[t := Release(old(session.tiers[t])).value]
                             else old(session.tiers)
  {
    var tier := session.tiers[t];
    if tier.mode == Untracked {
      return Ok(());
    }
    if tier.reserved <= 0 {
      return Err(ReservationInconsistent);
    }
    session.tiers := session.tiers[t := tier.(reserved := tier.reserved - 1)];
    return Ok(());
  }

  method FulfillReservedStock(session: Session, t: Id) returns (r: Result<(), Error>)
    requires t in session.tiers
    modifies session`tiers
    ensures r == if FulfillStock(old(session.tiers[t])).Some? then Ok(()) else Err(ReservationInconsistent)
    ensures session.tiers == if r.Ok? then old(session.tiers)[t := FulfillStock(old(session.tiers[t])).value]
                             else old(session.tiers)
  {
    var tier := session.tiers[t];
    if tier.mode == Untracked {
      return Ok(());
    }
    if tier.reserved <= 0 {
      return Err(ReservationInconsistent);
    }
    session.tiers := session.tiers[t := tier.(reserved := tier.reserved - 1, fulfilled := tier.fulfilled + 1)];
    return Ok(());
  }

  method SaveClaim(session: Session, id: Id, claim: RewardClaim)
    modifies session`claims, session`claimLog
    ensures session.claims == old(session.claims)[id := claim]
    ensures session.claimLog == old(session.claimLog) + [ClaimEvent(id, claim.status)]
  {
    session.claims := session.claims[id := claim];
    session.claimLog := session.claimLog + [ClaimEvent(id, claim.status)];
  }

  /** id is the new row's id. */
  method CreateClaim(session: Session, id: Id, c: Id, k: Id, t: Id) returns (r: Result<(), Error>)
    requires id !in session.claims
    modifies session`claims, session`claimLog
    ensures Outcome(old(DeskOf(session)), Create(WorldOf(session), id, c, k, t), r, DeskOf(session))
  {
    if k !in session.customers || session.customers[k].company != session.company || session.customers[k].deleted {
      return Err(CustomerNotFound);
    }
    if c !in session.campaigns || session.campaigns[c].deleted {
      return Err(CampaignNotFound);
    }
    var tier := GetTier(session, c, t);
    if tier.Err? {
      return Err(tier.error);
    }
    r := EnsureClaimable(session, c, k, t);
    if r.Err? {
      return;
    }
    assert session.tiers[t := session.tiers[t]] == session.tiers;
    SaveClaim(session, id, RewardClaim(c, k, t, Pending, None, None, None));
  }

  method ApproveClaim(session: Session, id: Id, user: Id) returns (r: Result<(), Error>)
    modifies session`tiers, session`claims, session`claimLog
    ensures Outcome(old(DeskOf(session)), Approve(id, user), r, DeskOf(session))
  {
    if id !in session.claims {
      return Err(ClaimNotFound);
    }
    var claim := session.claims[id];
    if claim.status != Pending {
      return Err(NotPending);
    }
    var tier := GetTier(session, claim.campaign, claim.tier);
    if tier.Err? {
      return Err(tier.error);
    }
    r := ReserveStock(session, claim.tier);
    if r.Err? {
      return;
    }
    SaveClaim(session, id, claim.(status := Approved, decidedBy := Some(user)));
  }

  method RejectClaim(session: Session, id: Id, user: Id) returns (r: Result<(), Error>)
    modifies session`tiers, session`claims, session`claimLog
    ensures Outcome(old(DeskOf(session)), Reject(id, user), r, DeskOf(session))
  {
    if id !in session.claims {
      return Err(ClaimNotFound);
    }
    var claim := session.claims[id];
    if claim.status != Pending && claim.status != Approved {
      return Err(NotOpen);
    }
    if claim.status == Approved {
      var tier := GetTier(session, claim.campaign, claim.tier);
      if tier.Err? {
        return Err(tier.error);
      }
      r := ReleaseReservedStock(session, claim.tier);
      if r.Err? {
        return;
      }
    }
    SaveClaim(session, id, claim.(status := Rejected, decidedBy := Some(user)));
    return Ok(());
  }

  method FulfillClaim(session: Session, id: Id, user: Id) returns (r: Result<(), Error>)
    modifies session`tiers, session`claims, session`claimLog
    ensures Outcome(old(DeskOf(session)), Fulfill(id, user), r, DeskOf(session))
  {
    if id !in session.claims {
      return Err(ClaimNotFound);
    }
    var claim := session.claims[id];
    if claim.status != Approved {
      return Err(NotApproved);
    }
    var tier := GetTier(session, claim.campaign, claim.tier);
    if tier.Err? {
      return Err(tier.error);
    }
    r := FulfillReservedStock(session, claim.tier);
    if r.Err? {
      return;
    }
    SaveClaim(session, id, claim.(status := Fulfilled, fulfilledBy := Some(user)));
  }

  /** customer is set when the portal cancels on a customer's behalf. */
  method CancelClaim(session: Session, id: Id, admin: Option<Id>, customer: Option<Id>) returns (r: Result<(), Error>)
    modifies session`tiers, session`claims, session`claimLog
    ensures Outcome(old(DeskOf(session)), Cancel(id, admin, customer), r, DeskOf(session))
  {
    if id !in session.claims {
      return Err(ClaimNotFound);
    }
    var claim := session.claims[id];
    if customer.Some? && claim.customer != customer.value {
      return Err(ClaimNotFound);
    }
    if claim.status != Pending && claim.status != Approved {
      return Err(NotOpen);
    }
    if customer.Some? && claim.status != Pending {
      return Err(CustomerMayCancelPendingOnly);
    }
    if claim.status == Approved {
      var tier := GetTier(session, claim.campaign, claim.tier);
      if tier.Err? {
        return Err(tier.error);
      }
      r := ReleaseReservedStock(session, claim.tier);
      if r.Err? {
        return;
      }
    }
    SaveClaim(session, id, claim.(status := CancelledClaim, cancelledBy := admin));
    return Ok(());
  }
}
