// Where a total stands on a campaign's tier ladder.
module Ladder {
  import opened Basics
  import opened Models
  import opened Rounding
  import opened Decimals

  /** An active tier, as the ladder query returns it. */
  datatype Rung = Rung(id: Id, required: int)

  datatype TierResult = TierResult(
    current: Option<Rung>,
    next: Option<Rung>,
    amountLeft: nat,
    basisPoints: nat,
    noTiers: bool)

  /** Ordered by required amount; amounts are positive and fit their 64-bit column. */
  ghost predicate IsLadder(tiers: seq<Rung>) {
    && (forall i :: 0 <= i < |tiers| ==> 0 < tiers[i].required < INT64_LIMIT)
    && (forall i, j :: 0 <= i < j < |tiers| ==> tiers[i].required <= tiers[j].required)
  }

  /** The number of rungs a total has reached. */
  function Reached(total: nat, tiers: seq<Rung>): (k: nat)
    ensures k <= |tiers|
  {
    if tiers == [] then 0
    else Reached(total, tiers[..|tiers| - 1]) + if tiers[|tiers| - 1].required <= total then 1 else 0
  }

  /** On a ladder the rungs reached are a prefix. */
  lemma {:induction false} ReachedIsPrefix(total: nat, tiers: seq<Rung>)
    requires IsLadder(tiers)
    ensures forall i :: 0 <= i < |tiers| ==> (tiers[i].required <= total <==> i < Reached(total, tiers))
  {
    if tiers == [] {
    } else {
      ReachedIsPrefix(total, tiers[..|tiers| - 1]);
    }
  }

  lemma ReachedIs(total: nat, tiers: seq<Rung>, k: nat)
    requires IsLadder(tiers) && k <= |tiers|
    requires forall i :: 0 <= i < k ==> tiers[i].required <= total
    requires k < |tiers| ==> total < tiers[k].required
    ensures Reached(total, tiers) == k
  {
    ReachedIsPrefix(total, tiers);
  }

  /** The specification: everything follows from how many rungs are reached. */
  function Place(total: nat, tiers: seq<Rung>): TierResult
    requires IsLadder(tiers)
  {
    ReachedIsPrefix(total, tiers);
    var k := Reached(total, tiers);
    var base := if k == 0 then 0 else tiers[k - 1].required;
    TierResult(
      if k == 0 then None else Some(tiers[k - 1]),
      if k == |tiers| then None else Some(tiers[k]),
      if k == |tiers| then 0 else tiers[k].required - total,
      if tiers == [] then 0
      else if k == |tiers| then 10000
      else Nearest(total - base, tiers[k].required - base),
      tiers == [])
  }

  method CalculateTiers(total: nat, tiers: seq<Rung>) returns (r: TierResult)
    requires IsLadder(tiers)
    ensures r == Place(total, tiers)
  {
    if tiers == [] {
      return TierResult(None, None, 0, 0, true);
    }
    var current: Option<Rung>, next: Option<Rung> := None, None;
    var i := 0;
    while i < |tiers|
      invariant 0 <= i <= |tiers|
      invariant forall j :: 0 <= j < i ==> tiers[j].required <= total
      invariant next == None && current == if i == 0 then None else Some(tiers[i - 1])
    {
      if total >= tiers[i].required {
        current := Some(tiers[i]);
      } else {
        next := Some(tiers[i]);
        break;
      }
      i := i + 1;
    }
    if i == |tiers| {
      PlaceOnTop(total, tiers);
    } else {
      PlaceBelow(total, tiers, i);
    }
    if current == None {
      var first := tiers[0];
      var points := PointsBelow(total, first.required);
      r := TierResult(None, Some(first), Max(first.required - total, 0), points, false);
    } else if next == None {
      r := TierResult(current, None, 0, 10000, false);
    } else {
      var interval := next.value.required - current.value.required;
      var progress := total - current.value.required;
      var points := PointsBelow(progress, interval);
      r := TierResult(current, next, Max(next.value.required - total, 0), points, false);
    }
  }

  method PointsBelow(progress: nat, interval: nat) returns (points: nat)
    requires progress < interval < INT64_LIMIT
    ensures points == Nearest(progress, interval)
  {
    BasisPointsBound(progress, interval);
    points := BasisPoints(progress, interval);
  }

  lemma PlaceOnTop(total: nat, tiers: seq<Rung>)
    requires IsLadder(tiers) && tiers != []
    requires forall i :: 0 <= i < |tiers| ==> tiers[i].required <= total
    ensures Place(total, tiers) == TierResult(Some(tiers[|tiers| - 1]), None, 0, 10000, false)
  {
    ReachedIs(total, tiers, |tiers|);
  }

  /** Where a total stands that reaches exactly the first k rungs. */
  lemma PlaceBelow(total: nat, tiers: seq<Rung>, k: nat)
    requires IsLadder(tiers) && k < |tiers| && total < tiers[k].required
    requires forall i :: 0 <= i < k ==> tiers[i].required <= total
    ensures var base := if k == 0 then 0 else tiers[k - 1].required;
      Place(total, tiers)
      == TierResult(if k == 0 then None else Some(tiers[k - 1]), Some(tiers[k]), tiers[k].required - total,
                    Nearest(total - base, tiers[k].required - base), false)
  {
    ReachedIs(total, tiers, k);
  }

  /** What a placement says, without reference to how it is found: the current tier is
      the last one with required <= total, the next tier the first one above it, the
      amount left closes the gap exactly, and the percentage is off by at most half a
      basis point of a positive interval. */
  lemma PlacementMeaning(total: nat, tiers: seq<Rung>)
    requires IsLadder(tiers)
    ensures var p := Place(total, tiers);
      var base := if p.current.None? then 0 else p.current.value.required;
      && (p.current.None? <==> forall t :: t in tiers ==> t.required > total)
      && (p.current.Some? ==>
            p.current.value in tiers && base <= total
            && forall t :: t in tiers && t.required <= total ==> t.required <= base)
      && (p.next.None? <==> forall t :: t in tiers ==> t.required <= total)
      && (p.next.Some? ==>
            p.next.value in tiers && total < p.next.value.required
            && forall t :: t in tiers && t.required > total ==> t.required >= p.next.value.required)
      && (p.amountLeft == 0 <==> p.next.None?)
      && (p.next.Some? ==>
            var n, d := total - base, p.next.value.required - base;
            && total + p.amountLeft == p.next.value.required
            && 0 <= n < d && p.basisPoints <= 10000
            && 2 * Abs(p.basisPoints * d - 10000 * n) <= d)
      && (p.next.None? ==> p.basisPoints == if tiers == [] then 0 else 10000)
  {
    ReachedIsPrefix(total, tiers);
    var k := Reached(total, tiers);
    var base := if k == 0 then 0 else tiers[k - 1].required;
    if k < |tiers| {
      NearestBound(total - base, tiers[k].required - base);
      assert tiers[k] in tiers;
    }
    if k > 0 {
      assert tiers[0] in tiers;
    }
  }

  /** The pair (rungs reached, basis points) never falls, in the lexicographic order, when
      the total grows. */
  lemma PlacementMonotone(low: nat, high: nat, tiers: seq<Rung>)
    requires IsLadder(tiers) && low <= high
    ensures Reached(low, tiers) <= Reached(high, tiers)
    ensures Reached(low, tiers) == Reached(high, tiers)
        ==> Place(low, tiers).basisPoints <= Place(high, tiers).basisPoints
  {
    ReachedMonotone(low, high, tiers);
    var k := Reached(low, tiers);
    if k == Reached(high, tiers) < |tiers| {
      SameRungMonotone(low, high, tiers, k);
    }
  }

  lemma {:induction false} ReachedMonotone(low: nat, high: nat, tiers: seq<Rung>)
    requires low <= high
    ensures Reached(low, tiers) <= Reached(high, tiers)
  {
    if tiers == [] {
    } else {
      ReachedMonotone(low, high, tiers[..|tiers| - 1]);
    }
  }

  lemma SameRungMonotone(low: nat, high: nat, tiers: seq<Rung>, k: nat)
    requires IsLadder(tiers) && low <= high
    requires Reached(low, tiers) == k == Reached(high, tiers) < |tiers|
    ensures Place(low, tiers).basisPoints <= Place(high, tiers).basisPoints
  {
    ReachedIsPrefix(low, tiers);
    ReachedIsPrefix(high, tiers);
    var base := if k == 0 then 0 else tiers[k - 1].required;
    NearestMonotone(low - base, high - base, tiers[k].required - base);
  }
}
