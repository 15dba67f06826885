/** The loops of the refund transaction, proved to write exactly the note that Refunds.Refund describes. */
module RefundService {
  import opened Prelude
  import opened Allocation
  import opened Orders
  import opened Invoice
  import opened Refunds

  function Got(m: map<Id, nat>, id: Id): nat {
    if id in m then m[id] else 0
  }

  lemma {:induction false} CountUnits(m: map<Id, nat>, taken: seq<NoteLine>, nl: NoteLine, m': map<Id, nat>)
    requires forall id :: Got(m, id) == Refunded(taken, id)
    requires m' == m[nl.lineId := Got(m, nl.lineId) + nl.quantity]
    ensures forall id :: Got(m', id) == Refunded(taken + [nl], id)
  {
    forall id
      ensures Got(m', id) == Refunded(taken + [nl], id)
    {
      SumBySnoc(taken, nl, QtyFor(id));
      assert Got(m, id) == Refunded(taken, id);
    }
  }

  /** Sums every earlier credit-note line per order line, and their gross. */
  method PriorUnits(prior: seq<NoteLine>) returns (refundedSoFar: map<Id, nat>, gross: nat)
    ensures forall id :: Got(refundedSoFar, id) == Refunded(prior, id)
    ensures gross == Gross(prior)
  {
    refundedSoFar := map[];
    gross := 0;
    for i := 0 to |prior|
      invariant forall id :: Got(refundedSoFar, id) == Refunded(prior[..i], id)
      invariant gross == Gross(prior[..i])
    {
      var nl := prior[i];
      assert prior[..i + 1] == prior[..i] + [nl];
      SumBySnoc(prior[..i], nl, GrossOf);
      CountUnits(refundedSoFar, prior[..i], nl, refundedSoFar[nl.lineId := Got(refundedSoFar, nl.lineId) + nl.quantity]);
      refundedSoFar := refundedSoFar[nl.lineId := Got(refundedSoFar, nl.lineId) + nl.quantity];
      gross := gross + nl.unitPrice * nl.quantity;
    }
    assert prior[..|prior|] == prior;
  }

  method RemainingTargets(live: seq<Line>, ghost prior: seq<NoteLine>, refundedSoFar: map<Id, nat>) returns (targets: seq<Target>)
    requires forall id :: Got(refundedSoFar, id) == Refunded(prior, id)
    ensures targets == Remaining(live, prior)
  {
    targets := [];
    for i := 0 to |live|
      invariant targets == Remaining(live[..i], prior)
    {
      assert live[..i + 1][..i] == live[..i];
      var left := live[i].quantity - Got(refundedSoFar, live[i].id);
      if left > 0 {
        targets := targets + [Target(live[i].id, left)];
      }
    }
    assert live[..|live|] == live;
  }

  lemma {:induction false} PicksRefused(live: seq<Line>, given: seq<Target>, i: nat)
    requires i <= |given| && PicksNamed(live, given[..i]).Err?
    ensures PicksNamed(live, given) == PicksNamed(live, given[..i])
    decreases |given|
  {
    if i == |given| {
      assert given[..i] == given;
    } else {
      var front := given[..|given| - 1];
      assert front[..i] == given[..i];
      PicksRefused(live, front, i);
    }
  }

  /** Brings a named combo's picks along; refuses a pick named by itself. */
  method ExpandCombos(live: seq<Line>, given: seq<Target>) returns (r: Result<seq<Target>>)
    ensures r == match PicksNamed(live, given) case Ok(picks) => Ok(given + picks) case Err(e) => Err(e)
  {
    var picks: seq<Target> := [];
    for i := 0 to |given|
      invariant PicksNamed(live, given[..i]) == Ok(picks)
    {
      assert given[..i + 1][..i] == given[..i];
      var line := Find(live, given[i].lineId);
      if line.Some? && line.value.parent.Some? {
        PicksRefused(live, given, i + 1);
        return Err(ComboRefundWhole);
      }
      if line.Some? && line.value.kind.Combo? {
        var before := picks;
        for j := 0 to |live|
          invariant picks == before + PickTargets(live[..j], line.value, given[i].quantity)
        {
          assert live[..j + 1][..j] == live[..j];
          if live[j].parent == Some(line.value.id) {
            picks := picks + [Target(live[j].id, given[i].quantity * live[j].quantity / line.value.quantity)];
          }
        }
        assert live[..|live|] == live;
      }
    }
    assert given[..|given|] == given;
    r := Ok(given + picks);
  }

  lemma {:induction false} TakeRefused(live: seq<Line>, prior: seq<NoteLine>, targets: seq<Target>, i: nat)
    requires i <= |targets| && Take(live, prior, targets[..i]).Err?
    ensures Take(live, prior, targets) == Take(live, prior, targets[..i])
    decreases |targets|
  {
    if i == |targets| {
      assert targets[..i] == targets;
    } else {
      var front := targets[..|targets| - 1];
      assert front[..i] == targets[..i];
      TakeRefused(live, prior, front, i);
    }
  }

  /** Checks and prices each target, counting it before the next one is checked. */
  method TakeTargets(live: seq<Line>, ghost prior: seq<NoteLine>, soFar: map<Id, nat>, targets: seq<Target>) returns (r: Result<seq<NoteLine>>, gross: nat)
    requires forall id :: Got(soFar, id) == Refunded(prior, id)
    ensures r == Take(live, prior, targets)
    ensures r.Ok? ==> gross == Gross(r.value)
  {
    var refundedSoFar: map<Id, nat> := soFar;
    var lineData: seq<NoteLine> := [];
    gross := 0;
    assert prior + lineData == prior;
    for i := 0 to |targets|
      invariant Take(live, prior, targets[..i]) == Ok(lineData)
      invariant forall id :: Got(refundedSoFar, id) == Refunded(prior + lineData, id)
      invariant gross == Gross(lineData)
    {
      assert targets[..i + 1][..i] == targets[..i];
      var target := targets[i];
      var line := Find(live, target.lineId);
      if line.None? {
        TakeRefused(live, prior, targets, i + 1);
        return Err(ValidationFailed), gross;
      }
      var remaining := line.value.quantity - Got(refundedSoFar, target.lineId);
      if target.quantity > remaining {
        TakeRefused(live, prior, targets, i + 1);
        return Err(OverRefund), gross;
      }
      var unitPrice := Unit(line.value);
      var nl := NoteLine(target.lineId, target.quantity, unitPrice, unitPrice * target.quantity);
      assert prior + (lineData + [nl]) == (prior + lineData) + [nl];
      CountUnits(refundedSoFar, prior + lineData, nl, refundedSoFar[nl.lineId := Got(refundedSoFar, nl.lineId) + nl.quantity]);
      SumBySnoc(lineData, nl, GrossOf);
      gross := gross + nl.amount;
      refundedSoFar := refundedSoFar[target.lineId := Got(refundedSoFar, target.lineId) + target.quantity];
      lineData := lineData + [nl];
    }
    assert targets[..|targets|] == targets;
    r := Ok(lineData);
  }

  /** The units to take back: the request with its combos' picks, or everything left. */
  method SelectTargets(live: seq<Line>, ghost prior: seq<NoteLine>, refundedSoFar: map<Id, nat>, request: Option<seq<Target>>) returns (r: Result<seq<Target>>)
    requires forall id :: Got(refundedSoFar, id) == Refunded(prior, id)
    ensures r == Targets(live, prior, request)
  {
    var targets;
    if request.Some? {
      targets := request.value;
    } else {
      targets := RemainingTargets(live, prior, refundedSoFar);
    }
    if |targets| == 0 {
      return Err(NothingToRefund);
    }
    if request.None? {
      return Ok(targets);
    }
    r := ExpandCombos(live, targets);
  }

  method PriorTotals(notes: seq<Note>) returns (subtotal: int, tax: int)
    ensures subtotal == SumBy(notes, NoteSubtotal) && tax == SumBy(notes, NoteTax)
  {
    subtotal, tax := 0, 0;
    for i := 0 to |notes|
      invariant subtotal == SumBy(notes[..i], NoteSubtotal) && tax == SumBy(notes[..i], NoteTax)
    {
      assert notes[..i + 1][..i] == notes[..i];
      subtotal, tax := subtotal + notes[i].subtotal, tax + notes[i].tax;
    }
    assert notes[..|notes|] == notes;
  }

  /** Prorates cumulatively, subtracts what earlier notes took, and cuts the subtotal across the lines. */
  method PriceNote(figures: Figures, notes: seq<Note>, taken: seq<NoteLine>, cumGross: nat) returns (note: Note)
    requires cumGross == Gross(AllLines(notes)) + Gross(taken)
    ensures note == NoteFor(figures, notes, taken)
  {
    var priorSubtotal, priorTax := PriorTotals(notes);
    var subtotal := NewPart(cumGross, figures.net, figures.subtotal, priorSubtotal);
    var tax := NewPart(cumGross, figures.tax, figures.subtotal, priorTax);
    note := CutLines(subtotal, tax, taken);
  }

  method CutLines(subtotal: nat, tax: nat, taken: seq<NoteLine>) returns (note: Note)
    ensures note == CutNote(subtotal, tax, taken)
  {
    var amounts := AllocateInOrder(subtotal, Grosses(taken));
    AllocateLength(subtotal, Grosses(taken));
    note := Note(subtotal, tax, WithAmounts(taken, amounts));
  }

  /** The refund transaction up to the row it inserts. */
  method MakeNote(lines: seq<Line>, figures: Figures, notes: seq<Note>, request: Option<seq<Target>>) returns (r: Result<Note>)
    ensures r == Refund(lines, figures, notes, request)
  {
    var live, prior := Live(lines), AllLines(notes);
    var refundedSoFar, priorGross := PriorUnits(prior);
    var targets := SelectTargets(live, prior, refundedSoFar, request);
    if targets.Err? {
      return Err(targets.error);
    }
    var taken, gross := TakeTargets(live, prior, refundedSoFar, targets.value);
    if taken.Err? {
      return Err(taken.error);
    }
    var note := PriceNote(figures, notes, taken.value, priorGross + gross);
    r := Ok(note);
  }
}
