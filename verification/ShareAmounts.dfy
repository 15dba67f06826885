/** Who pays what: every open share is the guest's own part of what is due, rounded down, the last taking the rest. */
module ShareAmounts {
  import opened Prelude
  import opened Allocation
  import opened Orders
  import opened Bills
  import opened Shares

  function OwnLine(g: Id): Line -> bool {
    (l: Line) => !l.voided && l.guest == Some(g)
  }

  function Cost(l: Line): int {
    l.quantity * Unit(l)
  }

  /** What a guest's own lines on the bill come to. */
  function OwnTotal(lines: seq<Line>, g: Id): int {
    SumBy(Filter(lines, OwnLine(g)), Cost)
  }

  /** What the guests with an open share ordered. */
  function OpenTotal(lines: seq<Line>): Share -> int {
    (s: Share) => if s.paid then 0 else OwnTotal(lines, s.guest)
  }

  function OpenAmount(s: Share): int {
    if s.paid then 0 else s.amount
  }

  lemma {:induction false} WeightIsOwn(lines: seq<Line>, g: Id)
    ensures Weight(lines, g) == OwnTotal(lines, g)
  {
    SumByFilter(lines, OwnLine(g), Cost, OrderedBy(g));
  }

  // ---- Positions --------------------------------------------------------------------------------------

  lemma {:induction false} OutstandingPrefix(shares: seq<Share>, k: nat)
    requires k < |shares| && !shares[k].paid
    ensures Outstanding(shares[..k]) < Outstanding(shares)
  {
    if k < |shares| - 1 {
      assert shares[..|shares| - 1][..k] == shares[..k];
      OutstandingPrefix(shares[..|shares| - 1], k);
    }
  }

  /** The open share at k is written the amount, and weighed by the weight, at its place among the open ones. */
  lemma {:induction false} PlacedAt(lines: seq<Line>, shares: seq<Share>, amounts: seq<int>, k: nat)
    requires |amounts| == Outstanding(shares) && k < |shares| && !shares[k].paid
    ensures var i := Outstanding(shares[..k]);
            && i < Outstanding(shares)
            && |Assign(shares, amounts)| == |shares| && Assign(shares, amounts)[k].amount == amounts[i]
            && |OutstandingWeights(lines, shares)| == Outstanding(shares) && OutstandingWeights(lines, shares)[i] == Weight(lines, shares[k].guest)
  {
    OutstandingPrefix(shares, k);
    WeightsCount(lines, shares);
    AssignSums(shares, amounts);
    var front, last := shares[..|shares| - 1], shares[|shares| - 1];
    var rest := if last.paid then amounts else amounts[..|amounts| - 1];
    WeightsCount(lines, front);
    AssignSums(front, rest);
    if k < |front| {
      assert front[..k] == shares[..k];
      PlacedAt(lines, front, rest, k);
    }
  }

  /** An open share has its place before the last exactly when another open one follows. */
  lemma {:induction false} LastOpenIff(shares: seq<Share>, k: nat)
    requires k < |shares| && !shares[k].paid
    ensures Outstanding(shares[..k]) == Outstanding(shares) - 1 <==> forall j :: k < j < |shares| ==> shares[j].paid
  {
    var front, last := shares[..|shares| - 1], shares[|shares| - 1];
    if k < |front| {
      assert front[..k] == shares[..k];
      OutstandingPrefix(front, k);
      LastOpenIff(front, k);
      assert forall j :: 0 <= j < |front| ==> front[j] == shares[j];
    }
  }

  // ---- Sums --------------------------------------------------------------------------------------------

  lemma {:induction false} WeightsTotal(lines: seq<Line>, shares: seq<Share>)
    ensures Sum(OutstandingWeights(lines, shares)) == SumBy(shares, OpenTotal(lines))
  {
    if |shares| > 0 {
      var front, last := shares[..|shares| - 1], shares[|shares| - 1];
      WeightsTotal(lines, front);
      WeightIsOwn(lines, last.guest);
      var weights: seq<int> := OutstandingWeights(lines, front);
      SumBySnoc(weights, Weight(lines, last.guest), Same);
    }
  }

  lemma {:induction false} SameOpenTotal(lines: seq<Line>, all: seq<Share>, synced: seq<Share>)
    requires Reassigned(all, synced)
    ensures SumBy(synced, OpenTotal(lines)) == SumBy(all, OpenTotal(lines))
  {
    if |all| > 0 {
      SameOpenTotal(lines, all[..|all| - 1], synced[..|all| - 1]);
    }
  }

  lemma {:induction false} OpenAndPaid(shares: seq<Share>)
    ensures SumBy(shares, OpenAmount) == SumBy(shares, ShareAmount) - Paid(shares)
  {
    if |shares| > 0 {
      OpenAndPaid(shares[..|shares| - 1]);
    }
  }

  lemma {:induction false} NothingOpenAfter(shares: seq<Share>, k: nat)
    requires k < |shares| && !shares[k].paid && forall j :: k < j < |shares| ==> shares[j].paid
    ensures SumBy(shares, OpenAmount) == SumBy(shares[..k], OpenAmount) + shares[k].amount
  {
    if k < |shares| - 1 {
      var front := shares[..|shares| - 1];
      assert front[..k] == shares[..k];
      NothingOpenAfter(front, k);
    }
  }

  // ---- The amounts -----------------------------------------------------------------------------------

  /** The guest's rounded-down part of what is due; nothing when nobody with an open share ordered anything. */
  function PartOf(due: int, own: int, whole: int): int
    requires 0 <= whole
  {
    if whole == 0 then 0 else due * own / whole
  }

  lemma {:induction false} PortionIs(due: nat, own: nat, whole: nat)
    ensures Portion(due, own, whole) == PartOf(due, own, whole)
  {
  }

  lemma {:induction false} SpreadAmount(lines: seq<Line>, all: seq<Share>, due: nat, k: nat)
    requires k < |all| && !all[k].paid && exists j :: k < j < |all| && !all[j].paid
    ensures |Spread(lines, all, due)| == |all|
    ensures 0 <= SumBy(all, OpenTotal(lines))
    ensures Spread(lines, all, due)[k].amount == PartOf(due, OwnTotal(lines, all[k].guest), SumBy(all, OpenTotal(lines)))
  {
    var weights := OutstandingWeights(lines, all);
    WeightsCount(lines, all);
    AllocateLength(due, weights);
    var amounts := Allocate(due, weights);
    PlacedAt(lines, all, amounts, k);
    LastOpenIff(all, k);
    var i := Outstanding(all[..k]);
    AllocateFair(due, weights, i);
    WeightsTotal(lines, all);
    NatSum(weights);
    WeightIsOwn(lines, all[k].guest);
    PortionIs(due, weights[i], Whole(weights));
  }

  ghost predicate HasLaterOpen(shares: seq<Share>, k: nat) {
    exists j :: k < j < |shares| && !shares[j].paid
  }

  /** What every open share of a synced bill must be: the guest's part while another open one follows, and all of them what is due. */
  ghost predicate CutByOrder(lines: seq<Line>, synced: seq<Share>, due: int) {
    var whole := SumBy(synced, OpenTotal(lines));
    && 0 <= whole
    && (forall k :: 0 <= k < |synced| && !synced[k].paid && HasLaterOpen(synced, k) ==>
      synced[k].amount == PartOf(due, OwnTotal(lines, synced[k].guest), whole))
    && SumBy(synced, OpenAmount) == due
  }

  /** So the last open share takes what the others leave. */
  lemma {:induction false} LastTakesRest(lines: seq<Line>, synced: seq<Share>, due: int, k: nat)
    requires CutByOrder(lines, synced, due) && k < |synced| && !synced[k].paid && !HasLaterOpen(synced, k)
    ensures synced[k].amount == due - SumBy(synced[..k], OpenAmount)
  {
    NothingOpenAfter(synced, k);
  }

  lemma {:induction false} OpenTotalNonNegative(lines: seq<Line>, shares: seq<Share>)
    ensures 0 <= SumBy(shares, OpenTotal(lines))
  {
    forall s | s in shares
      ensures 0 <= OpenTotal(lines)(s)
    {
      WeightIsOwn(lines, s.guest);
    }
    SumByNonNegative(shares, OpenTotal(lines));
  }

  lemma {:induction false} SpreadCutsByOrder(lines: seq<Line>, all: seq<Share>, synced: seq<Share>, due: nat)
    requires synced == Spread(lines, all, due) && SpreadOver(all, synced, Paid(all) + due)
    ensures CutByOrder(lines, synced, due)
  {
    SameOpenTotal(lines, all, synced);
    OpenTotalNonNegative(lines, synced);
    OpenAndPaid(synced);
    forall k | 0 <= k < |synced| && !synced[k].paid && HasLaterOpen(synced, k)
      ensures synced[k].amount == PartOf(due, OwnTotal(lines, synced[k].guest), SumBy(synced, OpenTotal(lines)))
    {
      var j :| k < j < |synced| && !synced[j].paid;
      assert !all[k].paid && !all[j].paid;
      SpreadAmount(lines, all, due, k);
    }
  }

  /** The synced rows are the given ones with what is due spread over the open ones. */
  ghost predicate IsSpread(lines: seq<Line>, all: seq<Share>, synced: seq<Share>, due: int) {
    0 <= due && synced == Spread(lines, all, due) && SpreadOver(all, synced, Paid(all) + due)
  }

  lemma {:induction false} SyncIsSpread(lines: seq<Line>, total: int, shares: seq<Share>, synced: seq<Share>, due: int)
    requires SharesOk(shares) && Sync(lines, total, shares) == Ok(synced) && due == total - Paid(shares)
    ensures IsSpread(lines, AddShares(shares, Guests(lines)), synced, due)
  {
    AddSharesOk(shares, Guests(lines));
    SyncAssigns(lines, total, shares, synced);
  }

  lemma {:induction false} SpreadIsCut(lines: seq<Line>, all: seq<Share>, synced: seq<Share>, due: int)
    requires IsSpread(lines, all, synced, due)
    ensures CutByOrder(lines, synced, due)
  {
    SpreadCutsByOrder(lines, all, synced, due);
  }

  /**
   * After a sync every open share but the last is exactly what is due times that guest's own lines over the lines of all
   * guests with an open share, rounded down - or nothing when those come to nothing - and all of them together are what is due.
   */
  lemma {:induction false} SyncCutsByOrder(lines: seq<Line>, total: int, shares: seq<Share>, synced: seq<Share>, due: int)
    requires SharesOk(shares) && Sync(lines, total, shares) == Ok(synced) && due == total - Paid(shares)
    ensures CutByOrder(lines, synced, due)
  {
    SyncIsSpread(lines, total, shares, synced, due);
    SpreadIsCut(lines, AddShares(shares, Guests(lines)), synced, due);
  }
}
