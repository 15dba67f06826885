/**
 * Splitting an amount by weights: every part but the last is its proportion rounded down and the
 * last takes what is left. Bill shares and credit-note lines are both cut this way.
 */
module Allocation {
  import opened Prelude
  import opened Rounding

  function Same(x: int): int {
    x
  }

  function Sum(s: seq<int>): int {
    SumBy(s, Same)
  }

  /** total * w / whole rounded down; nothing when there is no weight at all. */
  function Portion(total: nat, w: nat, whole: nat): nat {
    if whole == 0 then 0 else total * w / whole
  }

  function Floors(total: nat, weights: seq<nat>, whole: nat): seq<int> {
    if |weights| == 0 then [] else
      Floors(total, weights[..|weights| - 1], whole) + [Portion(total, weights[|weights| - 1], whole)]
  }

  function Allocate(total: nat, weights: seq<nat>): seq<int> {
    if |weights| == 0 then [] else
      var floors := Floors(total, weights[..|weights| - 1], Whole(weights));
      floors + [total - Sum(floors)]
  }

  function Whole(weights: seq<nat>): nat {
    NatSum(weights);
    Sum(weights)
  }

  lemma {:induction false} NatSum(weights: seq<nat>)
    ensures 0 <= Sum(weights)
  {
    var amounts: seq<int> := weights;
    SumByNonNegative(amounts, Same);
  }

  lemma {:induction false} PortionBounds(total: nat, w: nat, whole: nat)
    requires whole > 0
    ensures whole * Portion(total, w, whole) <= total * w < whole * Portion(total, w, whole) + whole
  {
  }

  lemma {:induction false} FloorsAt(total: nat, weights: seq<nat>, whole: nat, i: nat)
    requires i < |weights|
    ensures |Floors(total, weights, whole)| == |weights|
    ensures Floors(total, weights, whole)[i] == Portion(total, weights[i], whole)
  {
    if |weights| == 1 {
      assert Floors(total, weights[..0], whole) == [];
    } else {
      var front := weights[..|weights| - 1];
      FloorsAt(total, front, whole, if i < |front| then i else 0);
    }
  }

  /** The rounded-down parts leave less than one unit per part unallocated. */
  lemma {:induction false} FloorsSum(total: nat, weights: seq<nat>, whole: nat)
    requires whole > 0
    ensures whole * Sum(Floors(total, weights, whole)) <= total * Sum(weights)
    ensures total * Sum(weights) <= whole * Sum(Floors(total, weights, whole)) + whole * |weights|
  {
    if |weights| > 0 {
      var front, last := weights[..|weights| - 1], weights[|weights| - 1];
      var floors, p := Floors(total, front, whole), Portion(total, last, whole);
      FloorsSum(total, front, whole);
      PortionBounds(total, last, whole);
      SumBySnoc(floors, p, Same);
      Distribute(total, Sum(front), last);
      Distribute(whole, Sum(floors), p);
      Distribute(whole, |front|, 1);
    }
  }

  lemma {:induction false} AllocateLength(total: nat, weights: seq<nat>)
    ensures |Allocate(total, weights)| == |weights|
  {
    if |weights| > 1 {
      FloorsAt(total, weights[..|weights| - 1], Whole(weights), 0);
    }
  }

  /** No amount is dropped or counted twice. */
  lemma {:induction false} AllocateSumsExactly(total: nat, weights: seq<nat>)
    requires |weights| > 0
    ensures Sum(Allocate(total, weights)) == total
  {
    var floors := Floors(total, weights[..|weights| - 1], Whole(weights));
    SumBySnoc(floors, total - Sum(floors), Same);
  }

  /**
   * Every part but the last is exactly its proportion rounded down; the last is at least its own
   * proportion rounded down and exceeds it by less than one unit per part. So no part is negative.
   */
  lemma {:induction false} AllocateFair(total: nat, weights: seq<nat>, i: nat)
    requires i < |weights|
    ensures |Allocate(total, weights)| == |weights|
    ensures 0 <= Allocate(total, weights)[i]
    ensures i < |weights| - 1 ==> Allocate(total, weights)[i] == Portion(total, weights[i], Whole(weights))
    ensures i == |weights| - 1 && Whole(weights) > 0 ==>
              && Portion(total, weights[i], Whole(weights)) <= Allocate(total, weights)[i]
              && Whole(weights) * Allocate(total, weights)[i] <= total * weights[i] + Whole(weights) * i
  {
    AllocateLength(total, weights);
    var front, whole := weights[..|weights| - 1], Whole(weights);
    if i < |front| {
      FloorsAt(total, front, whole, i);
    } else if whole == 0 {
      NoWeightNoFloors(total, front);
    } else {
      var floors := Floors(total, front, whole);
      var last, w := total - Sum(floors), weights[|weights| - 1];
      FloorsSum(total, front, whole);
      assert whole == Sum(front) + w;
      LastPart(total, Sum(front), w, whole, Sum(floors), |front|);
    }
  }

  lemma {:induction false} LastPart(total: nat, frontWeight: int, w: nat, whole: nat, taken: int, parts: nat)
    requires whole > 0 && whole == frontWeight + w
    requires whole * taken <= total * frontWeight <= whole * taken + whole * parts
    ensures Portion(total, w, whole) <= total - taken
    ensures whole * (total - taken) <= total * w + whole * parts
    ensures 0 <= total - taken
  {
    PortionBounds(total, w, whole);
    var p := Portion(total, w, whole);
    assert total * whole == total * frontWeight + total * w;
    assert whole * (total - taken) == total * whole - whole * taken;
    if p > total - taken {
      MultipleGap(whole, p, total - taken, 1);
    }
  }

  lemma {:induction false} NoWeightNoFloors(total: nat, weights: seq<nat>)
    ensures Sum(Floors(total, weights, 0)) == 0
  {
    if |weights| > 0 {
      NoWeightNoFloors(total, weights[..|weights| - 1]);
      SumBySnoc(Floors(total, weights[..|weights| - 1], 0), 0, Same);
    }
  }

  method TotalWeight(weights: seq<nat>) returns (whole: nat)
    ensures whole == Whole(weights)
  {
    var sum := 0;
    for i := 0 to |weights|
      invariant sum == Sum(weights[..i])
    {
      assert weights[..i + 1][..i] == weights[..i];
      sum := sum + weights[i];
    }
    assert weights[..|weights|] == weights;
    NatSum(weights);
    whole := sum;
  }

  /** The loop both services run: allocate in order, the last one taking the remainder. */
  method AllocateInOrder(total: nat, weights: seq<nat>) returns (amounts: seq<int>)
    ensures amounts == Allocate(total, weights)
  {
    var whole := TotalWeight(weights);
    amounts := [];
    var taken := 0;
    for i := 0 to |weights|
      invariant i < |weights| ==> amounts == Floors(total, weights[..i], whole) && taken == Sum(amounts)
      invariant i == |weights| ==> amounts == Allocate(total, weights)
    {
      if i == |weights| - 1 {
        amounts := amounts + [total - taken];
      } else {
        var amount := Portion(total, weights[i], whole);
        assert weights[..i + 1][..i] == weights[..i];
        SumBySnoc(amounts, amount, Same);
        taken := taken + amount;
        amounts := amounts + [amount];
      }
    }
  }
}
