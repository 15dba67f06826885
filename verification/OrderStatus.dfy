/** The guest's order stepper, derived from the order's kitchen tickets. */
module OrderStatus {
  import opened Prelude
  import opened Orders
  import opened Kitchen

  datatype Stage = Placed | Preparing | Ready

  /** The stepper; accepted and preparing are reached together. */
  datatype StatusView = StatusView(step: Stage, placedAt: nat, acceptedAt: Option<nat>, readyAt: Option<nat>)

  function EarliestFired(tickets: seq<Ticket>): nat
    requires |tickets| > 0
  {
    var last := tickets[|tickets| - 1].firedAt;
    if |tickets| == 1 then last else
      var rest := EarliestFired(tickets[..|tickets| - 1]);
      if last < rest then last else rest
  }

  function LatestBumped(tickets: seq<Ticket>): nat
    requires |tickets| > 0
    requires forall t :: t in tickets ==> t.bumpedAt.Some?
  {
    var last := tickets[|tickets| - 1].bumpedAt.value;
    if |tickets| == 1 then last else
      var rest := LatestBumped(tickets[..|tickets| - 1]);
      if last > rest then last else rest
  }

  /** Reading the bump time of a bumped ticket is only defined when every bumped ticket has one. */
  function BuildOrderStatus(createdAt: nat, tickets: seq<Ticket>): StatusView
    requires forall t :: t in tickets && t.status == Bumped ==> t.bumpedAt.Some?
  {
    var hasTickets := |tickets| > 0;
    var allBumped := hasTickets && forall t :: t in tickets ==> t.status == Bumped;
    var acceptedAt := if hasTickets then Some(EarliestFired(tickets)) else None;
    var readyAt := if allBumped then Some(LatestBumped(tickets)) else None;
    StatusView(if !hasTickets then Placed else if allBumped then Ready else Preparing, createdAt, acceptedAt, readyAt)
  }

  lemma {:induction false} EarliestFiredIsMin(tickets: seq<Ticket>) returns (k: nat)
    requires |tickets| > 0
    ensures k < |tickets| && tickets[k].firedAt == EarliestFired(tickets)
    ensures forall i :: 0 <= i < |tickets| ==> EarliestFired(tickets) <= tickets[i].firedAt
  {
    k := |tickets| - 1;
    if |tickets| > 1 {
      var front := tickets[..|tickets| - 1];
      var j := EarliestFiredIsMin(front);
      assert forall i :: 0 <= i < |front| ==> front[i] == tickets[i];
      if tickets[j].firedAt <= tickets[k].firedAt {
        k := j;
      }
    }
  }

  lemma {:induction false} LatestBumpedIsMax(tickets: seq<Ticket>) returns (k: nat)
    requires |tickets| > 0
    requires forall t :: t in tickets ==> t.bumpedAt.Some?
    ensures k < |tickets| && tickets[k].bumpedAt == Some(LatestBumped(tickets))
    ensures forall i :: 0 <= i < |tickets| ==> tickets[i].bumpedAt.value <= LatestBumped(tickets)
  {
    k := |tickets| - 1;
    if |tickets| > 1 {
      var front := tickets[..|tickets| - 1];
      var j := LatestBumpedIsMax(front);
      assert forall i :: 0 <= i < |front| ==> front[i] == tickets[i];
      if tickets[j].bumpedAt.value >= tickets[k].bumpedAt.value {
        k := j;
      }
    }
  }

  /** Every kitchen-consistent order has a stepper, and the stepper never claims more than the tickets show. */
  lemma {:induction false} StepperTruthful(lines: seq<Line>, tickets: seq<Ticket>, createdAt: nat, clock: nat)
    requires KitchenOk(lines, tickets, createdAt, clock)
    ensures forall t :: t in tickets && t.status == Bumped ==> t.bumpedAt.Some?
    ensures var v := BuildOrderStatus(createdAt, tickets);
            && (v.step == Ready <==> |tickets| > 0 && forall t :: t in tickets ==> t.status == Bumped)
            && (v.step == Placed <==> tickets == [])
            && (v.acceptedAt.Some? <==> v.step != Placed)
            && (v.readyAt.Some? <==> v.step == Ready)
            && (v.acceptedAt.Some? ==> v.placedAt <= v.acceptedAt.value <= clock)
            && (v.readyAt.Some? ==> v.acceptedAt.value <= v.readyAt.value <= clock)
            && (v.readyAt.Some? ==> forall t :: t in tickets ==> t.bumpedAt.Some? && t.bumpedAt.value <= v.readyAt.value)
  {
    if |tickets| > 0 {
      var first := EarliestFiredIsMin(tickets);
      assert tickets[first] in tickets;
      if forall t :: t in tickets ==> t.status == Bumped {
        var last := LatestBumpedIsMax(tickets);
        assert tickets[last] in tickets;
      }
    }
  }
}
