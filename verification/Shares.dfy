/** Guest shares of an open bill: re-derived from the order's lines, paid shares never changing. */
module Shares {
  import opened Prelude
  import opened Allocation
  import opened Orders
  import opened Bills

  /** What a guest ordered; staff-added lines belong to no guest. */
  function OrderedBy(g: Id): Line -> int {
    (l: Line) => if !l.voided && l.guest == Some(g) then LineTotal(l) else 0
  }

  function Weight(lines: seq<Line>, g: Id): nat {
    SumByNonNegative(lines, OrderedBy(g));
    SumBy(lines, OrderedBy(g))
  }

  /** The guests with lines on the order, in order of first appearance. */
  function Guests(lines: seq<Line>): seq<Id> {
    if |lines| == 0 then [] else
      var front := Guests(lines[..|lines| - 1]);
      var last := lines[|lines| - 1];
      if last.voided || last.guest.None? || last.guest.value in front then front else front + [last.guest.value]
  }

  predicate HasShare(shares: seq<Share>, g: Id) {
    exists s :: s in shares && s.guest == g
  }

  /** Gives every guest without a share an empty one. */
  function AddShares(shares: seq<Share>, guests: seq<Id>): seq<Share> {
    if |guests| == 0 then shares else
      var front := AddShares(shares, guests[..|guests| - 1]);
      if HasShare(front, guests[|guests| - 1]) then front else front + [Share(guests[|guests| - 1], 0, false, None)]
  }

  /** The weights of the outstanding shares, in share order. */
  function OutstandingWeights(lines: seq<Line>, shares: seq<Share>): seq<nat> {
    if |shares| == 0 then [] else
      var front := OutstandingWeights(lines, shares[..|shares| - 1]);
      var last := shares[|shares| - 1];
      if last.paid then front else front + [Weight(lines, last.guest)]
  }

  function Outstanding(shares: seq<Share>): nat {
    if |shares| == 0 then 0 else Outstanding(shares[..|shares| - 1]) + if shares[|shares| - 1].paid then 0 else 1
  }

  /** Writes the amounts onto the outstanding shares, in share order. */
  function Assign(shares: seq<Share>, amounts: seq<int>): seq<Share>
    requires |amounts| == Outstanding(shares)
  {
    if |shares| == 0 then [] else
      var last := shares[|shares| - 1];
      if last.paid then Assign(shares[..|shares| - 1], amounts) + [last]
      else Assign(shares[..|shares| - 1], amounts[..|amounts| - 1]) + [last.(amount := amounts[|amounts| - 1])]
  }

  /** Re-derives the shares so that they sum exactly to the bill's total, or refuses. */
  function Sync(lines: seq<Line>, total: int, shares: seq<Share>): Result<seq<Share>> {
    var all := AddShares(shares, Guests(lines));
    var due := total - Paid(all);
    if due < 0 || (due > 0 && Outstanding(all) == 0) then Err(BillChanged) else Ok(Spread(lines, all, due))
  }

  /** Cuts what is due across the outstanding shares by their guests' lines. */
  function Spread(lines: seq<Line>, all: seq<Share>, due: nat): seq<Share> {
    WeightsCount(lines, all);
    AllocateLength(due, OutstandingWeights(lines, all));
    Assign(all, Allocate(due, OutstandingWeights(lines, all)))
  }

  lemma {:induction false} WeightsCount(lines: seq<Line>, shares: seq<Share>)
    ensures |OutstandingWeights(lines, shares)| == Outstanding(shares)
  {
    if |shares| > 0 {
      WeightsCount(lines, shares[..|shares| - 1]);
    }
  }

  ghost predicate DistinctGuests(shares: seq<Share>) {
    forall i, j :: 0 <= i < j < |shares| ==> shares[i].guest != shares[j].guest
  }

  ghost predicate SharesOk(shares: seq<Share>) {
    && DistinctGuests(shares)
    && forall s :: s in shares ==> 0 <= s.amount
  }

  // ---- Syncing -----------------------------------------------------------------------------------

  lemma {:induction false} AddSharesKept(shares: seq<Share>, guests: seq<Id>)
    ensures |shares| <= |AddShares(shares, guests)| && AddShares(shares, guests)[..|shares|] == shares
    ensures Paid(AddShares(shares, guests)) == Paid(shares)
    ensures SharesOk(shares) ==> SharesOk(AddShares(shares, guests))
    ensures Outstanding(shares) <= Outstanding(AddShares(shares, guests))
    ensures forall k :: |shares| <= k < |AddShares(shares, guests)| ==> !AddShares(shares, guests)[k].paid
  {
    if |guests| > 0 {
      var front, g := AddShares(shares, guests[..|guests| - 1]), guests[|guests| - 1];
      AddSharesKept(shares, guests[..|guests| - 1]);
      if !HasShare(front, g) {
        SumBySnoc(front, Share(g, 0, false, None), PaidAmount);
        assert (front + [Share(g, 0, false, None)])[..|front|] == front;
        assert forall k :: 0 <= k < |front| ==> front[k] in front;
      }
    }
  }

  lemma {:induction false} HasShareSnoc(shares: seq<Share>, s: Share, g: Id)
    ensures HasShare(shares + [s], g) <==> HasShare(shares, g) || s.guest == g
  {
    if s.guest == g {
      assert s in shares + [s];
    } else if HasShare(shares, g) {
      var x :| x in shares && x.guest == g;
      assert x in shares + [s];
    }
  }

  lemma {:induction false} AddSharesCovers(shares: seq<Share>, guests: seq<Id>, g: Id)
    ensures HasShare(AddShares(shares, guests), g) <==> HasShare(shares, g) || g in guests
  {
    if |guests| > 0 {
      var front, last := guests[..|guests| - 1], guests[|guests| - 1];
      assert guests == front + [last];
      AddSharesCovers(shares, front, g);
      HasShareSnoc(AddShares(shares, front), Share(last, 0, false, None), g);
    }
  }

  lemma {:induction false} SameGuests(all: seq<Share>, synced: seq<Share>, g: Id)
    requires |synced| == |all| && forall k :: 0 <= k < |all| ==> synced[k].guest == all[k].guest
    ensures HasShare(synced, g) <==> HasShare(all, g)
  {
    if s :| s in all && s.guest == g {
      var k :| 0 <= k < |all| && all[k] == s;
      assert synced[k] in synced;
    }
    if s :| s in synced && s.guest == g {
      var k :| 0 <= k < |synced| && synced[k] == s;
      assert all[k] in all;
    }
  }

  lemma {:induction false} AssignSums(shares: seq<Share>, amounts: seq<int>)
    requires |amounts| == Outstanding(shares)
    ensures |Assign(shares, amounts)| == |shares|
    ensures SumBy(Assign(shares, amounts), ShareAmount) == Paid(shares) + Sum(amounts)
    ensures Paid(Assign(shares, amounts)) == Paid(shares)
    ensures Outstanding(Assign(shares, amounts)) == Outstanding(shares)
  {
    if |shares| > 0 {
      var front, last := shares[..|shares| - 1], shares[|shares| - 1];
      var n := |amounts| - 1;
      AssignSums(front, if last.paid then amounts else amounts[..n]);
      var front' := Assign(front, if last.paid then amounts else amounts[..n]);
      var last' := Assign(shares, amounts)[|front|];
      assert Assign(shares, amounts) == front' + [last'];
      SumBySnoc(front', last', ShareAmount);
      SumBySnoc(front', last', PaidAmount);
    }
  }

  lemma {:induction false} AssignAt(shares: seq<Share>, amounts: seq<int>, k: nat)
    requires |amounts| == Outstanding(shares) && k < |shares|
    requires forall a :: a in amounts ==> 0 <= a
    ensures |Assign(shares, amounts)| == |shares|
    ensures var s := Assign(shares, amounts)[k];
            && s.guest == shares[k].guest && s.paid == shares[k].paid && s.tender == shares[k].tender
            && (s.paid ==> s == shares[k])
            && (!s.paid ==> 0 <= s.amount)
  {
    AssignSums(shares, amounts);
    var front, last := shares[..|shares| - 1], shares[|shares| - 1];
    var n := |amounts| - 1;
    if !last.paid {
      assert amounts[n] in amounts;
      assert forall a :: a in amounts[..n] ==> a in amounts;
    }
    if k < |front| {
      AssignAt(front, if last.paid then amounts else amounts[..n], k);
      AssignSums(front, if last.paid then amounts else amounts[..n]);
    } else {
      AssignSums(front, if last.paid then amounts else amounts[..n]);
    }
  }

  /** The same rows with new amounts on the outstanding ones. */
  ghost predicate Reassigned(all: seq<Share>, synced: seq<Share>) {
    && |synced| == |all|
    && forall k :: 0 <= k < |all| ==> synced[k].guest == all[k].guest && synced[k].paid == all[k].paid && (all[k].paid ==> synced[k] == all[k])
  }

  /** The same rows, none negative, together exactly the total. */
  ghost predicate SpreadOver(all: seq<Share>, synced: seq<Share>, total: int) {
    Reassigned(all, synced) && SharesOk(synced) && SumBy(synced, ShareAmount) == total && Paid(synced) == Paid(all)
  }

  lemma {:induction false} SpreadExact(lines: seq<Line>, all: seq<Share>, due: nat)
    requires SharesOk(all) && (Outstanding(all) == 0 ==> due == 0)
    ensures SpreadOver(all, Spread(lines, all, due), Paid(all) + due)
  {
    var weights := OutstandingWeights(lines, all);
    WeightsCount(lines, all);
    AllocateLength(due, weights);
    var amounts := Allocate(due, weights);
    if |weights| > 0 {
      AllocateSumsExactly(due, weights);
    }
    AssignSums(all, amounts);
    forall a | a in amounts
      ensures 0 <= a
    {
      var i :| 0 <= i < |amounts| && amounts[i] == a;
      AllocateFair(due, weights, i);
    }
    var synced := Assign(all, amounts);
    forall k | 0 <= k < |all|
      ensures synced[k].guest == all[k].guest && synced[k].paid == all[k].paid && (all[k].paid ==> synced[k] == all[k]) && 0 <= synced[k].amount
    {
      AssignAt(all, amounts, k);
      assert all[k] in all;
    }
  }

  /**
   * After a sync no share is negative and paid plus outstanding is exactly the total; exactly the guests with
   * a share before or a line have one; guests, payment marks and paid amounts are untouched.
   */
  lemma {:induction false} SyncExact(lines: seq<Line>, total: int, shares: seq<Share>)
    requires SharesOk(shares) && Sync(lines, total, shares).Ok?
    ensures var synced := Sync(lines, total, shares).value;
            && SharesOk(synced)
            && SumBy(synced, ShareAmount) == total
            && Paid(synced) == Paid(shares)
            && Extends(shares, synced, Guests(lines))
  {
    AddSharesOk(shares, Guests(lines));
    SyncAssigns(lines, total, shares, Sync(lines, total, shares).value);
    ExtendsAll(shares, Guests(lines), Sync(lines, total, shares).value);
  }

  lemma {:induction false} SyncAssigns(lines: seq<Line>, total: int, shares: seq<Share>, synced: seq<Share>)
    requires SharesOk(shares) && Sync(lines, total, shares) == Ok(synced)
    ensures SpreadOver(AddShares(shares, Guests(lines)), synced, total)
  {
    var all := AddShares(shares, Guests(lines));
    AddSharesOk(shares, Guests(lines));
    assert synced == Spread(lines, all, total - Paid(all));
    SpreadExact(lines, all, total - Paid(all));
  }

  lemma {:induction false} AddSharesOk(shares: seq<Share>, guests: seq<Id>)
    requires SharesOk(shares)
    ensures SharesOk(AddShares(shares, guests)) && Paid(AddShares(shares, guests)) == Paid(shares)
  {
    AddSharesKept(shares, guests);
  }

  /** The old rows with their guests, marks and paid amounts, then an open row for every guest that had none. */
  ghost predicate Extends(shares: seq<Share>, synced: seq<Share>, guests: seq<Id>) {
    && |shares| <= |synced|
    && (forall k :: 0 <= k < |shares| ==> synced[k].guest == shares[k].guest && synced[k].paid == shares[k].paid && (shares[k].paid ==> synced[k] == shares[k]))
    && (forall k :: |shares| <= k < |synced| ==> !synced[k].paid)
    && (forall g :: HasShare(synced, g) <==> HasShare(shares, g) || g in guests)
  }

  lemma {:induction false} ExtendsAll(shares: seq<Share>, guests: seq<Id>, synced: seq<Share>)
    requires Reassigned(AddShares(shares, guests), synced)
    ensures Extends(shares, synced, guests)
  {
    var all := AddShares(shares, guests);
    AddSharesKept(shares, guests);
    assert forall k :: 0 <= k < |shares| ==> all[k] == all[..|shares|][k];
    forall g
      ensures HasShare(synced, g) <==> HasShare(shares, g) || g in guests
    {
      AddSharesCovers(shares, guests, g);
      SameGuests(all, synced, g);
    }
  }

  /** Syncing is refused exactly when more was paid than is owed, or something is owed and no share is open to take it. */
  lemma {:induction false} SyncRefusedIff(lines: seq<Line>, total: int, shares: seq<Share>)
    requires SharesOk(shares)
    ensures Sync(lines, total, shares).Err? <==>
              || total < Paid(shares)
              || (total > Paid(shares) && (forall s :: s in shares ==> s.paid) && (forall g :: g in Guests(lines) ==> HasShare(shares, g)))
  {
    AddSharesKept(shares, Guests(lines));
    NobodyOutstanding(shares, Guests(lines));
  }

  /** Nobody is left to pay exactly when every share is paid and every guest has one. */
  lemma {:induction false} NobodyOutstanding(shares: seq<Share>, guests: seq<Id>)
    ensures Outstanding(AddShares(shares, guests)) == 0 <==> (forall s :: s in shares ==> s.paid) && (forall g :: g in guests ==> HasShare(shares, g))
  {
    var all := AddShares(shares, guests);
    AddSharesKept(shares, guests);
    OutstandingIff(all);
    if (forall s :: s in shares ==> s.paid) && (forall g :: g in guests ==> HasShare(shares, g)) {
      AddSharesNone(shares, guests);
    } else if s :| s in shares && !s.paid {
      assert s in all[..|shares|];
      assert s in all;
    } else {
      var g :| g in guests && !HasShare(shares, g);
      AddSharesCovers(shares, guests, g);
      var s :| s in all && s.guest == g;
      var k :| 0 <= k < |all| && all[k] == s;
    }
  }

  lemma {:induction false} OutstandingIff(shares: seq<Share>)
    ensures Outstanding(shares) == 0 <==> forall s :: s in shares ==> s.paid
  {
    if |shares| > 0 {
      var front, last := shares[..|shares| - 1], shares[|shares| - 1];
      assert shares == front + [last];
      OutstandingIff(front);
      assert last in shares;
    }
  }

  lemma {:induction false} AddSharesNone(shares: seq<Share>, guests: seq<Id>)
    requires forall g :: g in guests ==> HasShare(shares, g)
    ensures AddShares(shares, guests) == shares
  {
    if |guests| > 0 {
      assert guests[|guests| - 1] in guests;
      assert forall g :: g in guests[..|guests| - 1] ==> g in guests;
      AddSharesNone(shares, guests[..|guests| - 1]);
    }
  }

  // ---- Paying one share ----------------------------------------------------------------------------

  function IndexOfGuest(shares: seq<Share>, g: Id): (r: Option<nat>)
    ensures r.Some? ==> r.value < |shares| && shares[r.value].guest == g
    ensures r.None? ==> !HasShare(shares, g)
  {
    if |shares| == 0 then None
    else if shares[|shares| - 1].guest == g then Some(|shares| - 1)
    else
      assert shares == shares[..|shares| - 1] + [shares[|shares| - 1]];
      IndexOfGuest(shares[..|shares| - 1], g)
  }

  /** Marking a share paid moves its amount from outstanding to paid. */
  lemma {:induction false} MarkPaid(shares: seq<Share>, i: nat, tender: nat)
    requires SharesOk(shares) && i < |shares| && !shares[i].paid
    ensures var shares' := shares[i := shares[i].(paid := true, tender := Some(tender))];
            && SharesOk(shares')
            && Paid(shares') == Paid(shares) + shares[i].amount
            && SumBy(shares', ShareAmount) == SumBy(shares, ShareAmount)
            && Paid(shares') <= SumBy(shares', ShareAmount)
  {
    var paidShare := shares[i].(paid := true, tender := Some(tender));
    SumByUpdate(shares, i, paidShare, PaidAmount);
    SumByUpdate(shares, i, paidShare, ShareAmount);
    var shares' := shares[i := paidShare];
    assert shares[i] in shares;
    forall s | s in shares'
      ensures 0 <= s.amount
    {
      assert s == paidShare || s in shares;
    }
    SumByMono(shares', PaidAmount, ShareAmount);
  }

  lemma {:induction false} AllPaid(shares: seq<Share>)
    requires forall s :: s in shares ==> s.paid
    ensures Paid(shares) == SumBy(shares, ShareAmount)
  {
    SumByEqual(shares, PaidAmount, ShareAmount);
  }

  function MarkAllPaid(shares: seq<Share>, tender: nat): seq<Share> {
    seq(|shares|, i requires 0 <= i < |shares| => shares[i].(paid := true, tender := Some(tender)))
  }

  lemma {:induction false} MarkAllPaidOk(shares: seq<Share>, tender: nat)
    requires SharesOk(shares)
    ensures SharesOk(MarkAllPaid(shares, tender))
  {
    var shares' := MarkAllPaid(shares, tender);
    forall s | s in shares'
      ensures 0 <= s.amount
    {
      var i :| 0 <= i < |shares'| && shares'[i] == s;
      assert shares[i] in shares;
    }
  }

  // ---- The loops of syncShares ---------------------------------------------------------------------

  lemma {:induction false} GuestsCover(lines: seq<Line>, g: Id)
    ensures g in Guests(lines) <==> exists l :: l in lines && !l.voided && l.guest == Some(g)
    ensures g !in Guests(lines) ==> Weight(lines, g) == 0
  {
    if |lines| > 0 {
      var front, last := lines[..|lines| - 1], lines[|lines| - 1];
      assert lines == front + [last];
      GuestsCover(front, g);
      assert last in lines;
      if l :| l in front && !l.voided && l.guest == Some(g) {
        assert l in lines;
      }
    }
  }

  /** Accumulates each guest's line total in a map, remembering the order guests were first seen. */
  method WeighGuests(lines: seq<Line>) returns (order: seq<Id>, weights: map<Id, nat>)
    ensures order == Guests(lines)
    ensures forall g :: (if g in weights then weights[g] else 0) == Weight(lines, g)
  {
    order, weights := [], map[];
    for i := 0 to |lines|
      invariant order == Guests(lines[..i])
      invariant forall g :: g in weights <==> g in order
      invariant forall g :: (if g in weights then weights[g] else 0) == Weight(lines[..i], g)
    {
      var line := lines[i];
      assert lines[..i + 1][..i] == lines[..i];
      if !line.voided && line.guest.Some? {
        var g := line.guest.value;
        if g in weights {
          weights := weights[g := weights[g] + LineTotal(line)];
        } else {
          GuestsCover(lines[..i], g);
          order := order + [g];
          weights := weights[g := LineTotal(line)];
        }
      }
    }
    assert lines[..|lines|] == lines;
  }

  /** syncShares: weigh the guests, add missing shares, and re-cut what is due across the outstanding ones. */
  method SyncShares(lines: seq<Line>, total: int, current: seq<Share>) returns (r: Result<seq<Share>>)
    ensures r == Sync(lines, total, current)
  {
    var order, weights := WeighGuests(lines);
    var shares := current;
    for i := 0 to |order|
      invariant shares == AddShares(current, order[..i])
    {
      assert order[..i + 1][..i] == order[..i];
      if !HasShare(shares, order[i]) {
        shares := shares + [Share(order[i], 0, false, None)];
      }
    }
    assert order[..|order|] == order;
    var paid := 0;
    var outstanding: seq<nat> := [];
    for i := 0 to |shares|
      invariant paid == Paid(shares[..i])
      invariant outstanding == OutstandingWeights(lines, shares[..i])
    {
      assert shares[..i + 1][..i] == shares[..i];
      if shares[i].paid {
        paid := paid + shares[i].amount;
      } else {
        var g := shares[i].guest;
        outstanding := outstanding + [if g in weights then weights[g] else 0];
      }
    }
    assert shares[..|shares|] == shares;
    WeightsCount(lines, shares);
    var due := total - paid;
    if due < 0 || (due > 0 && |outstanding| == 0) {
      return Err(BillChanged);
    }
    var amounts := AllocateInOrder(due, outstanding);
    AllocateLength(due, outstanding);
    var synced := WriteAmounts(shares, amounts);
    r := Ok(synced);
  }

  method WriteAmounts(shares: seq<Share>, amounts: seq<int>) returns (synced: seq<Share>)
    requires |amounts| == Outstanding(shares)
    ensures synced == Assign(shares, amounts)
  {
    synced := [];
    var next := 0;
    for i := 0 to |shares|
      invariant next == Outstanding(shares[..i])
      invariant next + Outstanding(shares[i..]) == |amounts|
      invariant synced == Assign(shares[..i], amounts[..next])
    {
      assert shares[..i + 1][..i] == shares[..i];
      OutstandingHead(shares[i..]);
      assert shares[i..][1..] == shares[i + 1..];
      if shares[i].paid {
        synced := synced + [shares[i]];
      } else {
        assert amounts[..next + 1][..next] == amounts[..next];
        synced := synced + [shares[i].(amount := amounts[next])];
        next := next + 1;
      }
    }
    assert shares[..|shares|] == shares && amounts[..next] == amounts;
  }

  lemma {:induction false} OutstandingHead(shares: seq<Share>)
    requires |shares| > 0
    ensures Outstanding(shares) == Outstanding(shares[1..]) + if shares[0].paid then 0 else 1
  {
    if |shares| > 1 {
      var front := shares[..|shares| - 1];
      OutstandingHead(front);
      assert front[1..] == shares[1..][..|shares| - 2];
    }
  }
}
