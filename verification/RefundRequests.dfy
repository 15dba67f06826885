/** What a refund request gets: exactly the units it names, with every named combo's picks in proportion. */
module RefundRequests {
  import opened Prelude
  import opened Rounding
  import opened Allocation
  import opened Orders
  import opened Invoice
  import opened Refunds
  import opened Bills
  import opened Tabs
  import opened TabInvariant

  /** The line is on the bill and may be named: an item or a whole combo. */
  ghost predicate IsTopLine(live: seq<Line>, id: Id) {
    exists l :: l in live && l.id == id && l.parent.None?
  }

  ghost predicate OnBill(live: seq<Line>, id: Id) {
    exists l :: l in live && l.id == id
  }

  /** What the code must accept: something is named, only top lines are, and no more than is left of each. */
  ghost predicate Refundable(live: seq<Line>, prior: seq<NoteLine>, request: seq<Target>) {
    && request != []
    && (forall i :: 0 <= i < |request| ==> IsTopLine(live, request[i].lineId))
    && (forall l :: l in live && l.parent.None? ==> Refunded(prior, l.id) + Targeted(request, l.id) <= l.quantity)
  }

  ghost predicate Named(request: seq<Target>, id: Id) {
    exists t :: t in request && t.lineId == id
  }

  /** What the note must hold: the named units of top lines, each combo's picks in its ratio, and nothing else. */
  ghost predicate TakesExactly(live: seq<Line>, request: seq<Target>, note: Note) {
    && (forall l :: l in live && l.parent.None? ==> Refunded(note.lines, l.id) == Targeted(request, l.id))
    && (forall p, c :: p in live && c in live && IsParentOf(p, c) ==> Refunded(note.lines, c.id) * p.quantity == Targeted(request, p.id) * c.quantity)
    && (forall i :: 0 <= i < |note.lines| ==> Asked(live, request, note.lines[i]))
  }

  /** A note line is of a line that was named, or of a pick whose combo was, at its full unit price. */
  ghost predicate Asked(live: seq<Line>, request: seq<Target>, nl: NoteLine) {
    exists l :: l in live && l.id == nl.lineId && nl.unitPrice == Unit(l)
      && (Named(request, l.id) || (l.parent.Some? && Named(request, l.parent.value)))
  }

  // ---- Accepting -----------------------------------------------------------------------------------

  ghost predicate Capped(live: seq<Line>, prior: seq<NoteLine>, targets: seq<Target>) {
    forall l :: l in live ==> Refunded(prior, l.id) + Targeted(targets, l.id) <= l.quantity
  }

  ghost predicate AllOnBill(live: seq<Line>, targets: seq<Target>) {
    forall i :: 0 <= i < |targets| ==> OnBill(live, targets[i].lineId)
  }

  lemma {:induction false} TargetedSnoc(front: seq<Target>, t: Target, id: Id)
    ensures Targeted(front + [t], id) == Targeted(front, id) + if t.lineId == id then t.quantity else 0
  {
    SumBySnoc(front, t, TargetFor(id));
  }

  /** One more target fits exactly when its line still has that many units. */
  lemma {:induction false} CappedSnoc(live: seq<Line>, prior: seq<NoteLine>, front: seq<Target>, t: Target, line: Line)
    requires Distinct(live) && line in live && line.id == t.lineId
    ensures Capped(live, prior, front + [t]) <==>
      Capped(live, prior, front) && Refunded(prior, line.id) + Targeted(front, line.id) + t.quantity <= line.quantity
  {
    forall l | l in live
      ensures Targeted(front + [t], l.id) == Targeted(front, l.id) + if l == line then t.quantity else 0
    {
      TargetedSnoc(front, t, l.id);
      if l.id == line.id {
        SameId(live, l, line);
      }
    }
  }

  /** Targets are taken one by one exactly when all are on the bill and no line is asked for past its quantity. */
  lemma {:induction false} TakeIff(live: seq<Line>, prior: seq<NoteLine>, targets: seq<Target>)
    requires Distinct(live) && Capped(live, prior, []) && forall nl :: nl in prior ==> Priced(live, nl)
    ensures Take(live, prior, targets).Ok? <==> AllOnBill(live, targets) && Capped(live, prior, targets)
  {
    if |targets| > 0 {
      var front, t := targets[..|targets| - 1], targets[|targets| - 1];
      assert targets == front + [t];
      TakeIff(live, prior, front);
      var line := Find(live, t.lineId);
      if line.Some? {
        assert OnBill(live, t.lineId);
        CappedSnoc(live, prior, front, t, line.value);
        if Take(live, prior, front).Ok? {
          CappedNow(live, prior, front, line.value);
        }
      }
      AllOnBillSnoc(live, front, t);
    }
  }

  lemma {:induction false} AllOnBillSnoc(live: seq<Line>, front: seq<Target>, t: Target)
    ensures AllOnBill(live, front + [t]) <==> AllOnBill(live, front) && OnBill(live, t.lineId)
  {
    if AllOnBill(live, front + [t]) {
      assert forall i :: 0 <= i < |front| ==> front[i] == (front + [t])[i];
      assert (front + [t])[|front|] == t;
    }
  }

  lemma {:induction false} CappedNow(live: seq<Line>, prior: seq<NoteLine>, front: seq<Target>, line: Line)
    requires Distinct(live) && Capped(live, prior, []) && (forall nl :: nl in prior ==> Priced(live, nl)) && Take(live, prior, front).Ok?
    ensures Refunded(prior + Take(live, prior, front).value, line.id) == Refunded(prior, line.id) + Targeted(front, line.id)
  {
    forall l | l in live
      ensures Refunded(prior, l.id) <= l.quantity
    {
      assert Targeted([], l.id) == 0;
    }
    TakeUnits(live, prior, front);
    ConcatRefunded(prior, Take(live, prior, front).value, line.id);
  }

  ghost predicate NoPickIn(live: seq<Line>, given: seq<Target>) {
    forall i, l :: 0 <= i < |given| && l in live && l.id == given[i].lineId ==> l.parent.None?
  }

  /** Picks are brought along exactly when no pick was named itself. */
  lemma {:induction false} PicksNamedIff(live: seq<Line>, given: seq<Target>)
    requires Distinct(live)
    ensures PicksNamed(live, given).Ok? <==> NoPickIn(live, given)
  {
    if |given| > 0 {
      var front, t := given[..|given| - 1], given[|given| - 1];
      PicksNamedIff(live, front);
      assert forall i :: 0 <= i < |front| ==> front[i] == given[i];
      var line := Find(live, t.lineId);
      if line.Some? {
        forall l | l in live && l.id == t.lineId
          ensures l == line.value
        {
          SameId(live, l, line.value);
        }
      }
    }
  }

  // ---- What is brought along -------------------------------------------------------------------------

  /** A target is a pick of a combo the request names. */
  ghost predicate BroughtBy(live: seq<Line>, given: seq<Target>, t: Target) {
    exists l :: l in live && l.id == t.lineId && l.parent.Some? && Named(given, l.parent.value)
  }

  lemma {:induction false} PickTargetsFrom(lines: seq<Line>, combo: Line, quantity: nat, t: Target)
    requires t in PickTargets(lines, combo, quantity)
    ensures exists l :: l in lines && l.id == t.lineId && l.parent == Some(combo.id)
  {
    var front, last := lines[..|lines| - 1], lines[|lines| - 1];
    if t in PickTargets(front, combo, quantity) {
      PickTargetsFrom(front, combo, quantity, t);
      var l :| l in front && l.id == t.lineId && l.parent == Some(combo.id);
      assert l in lines;
    } else {
      assert last in lines;
    }
  }

  lemma {:induction false} NamedMore(front: seq<Target>, t: Target, id: Id)
    ensures Named(front + [t], id) <==> Named(front, id) || t.lineId == id
  {
    if Named(front, id) {
      var x :| x in front && x.lineId == id;
      assert x in front + [t];
    }
    assert t in front + [t];
  }

  lemma {:induction false} PicksFromCombos(live: seq<Line>, given: seq<Target>, t: Target)
    requires PicksNamed(live, given).Ok? && t in PicksNamed(live, given).value
    ensures BroughtBy(live, given, t)
  {
    var front, last := given[..|given| - 1], given[|given| - 1];
    assert given == front + [last];
    var line := Find(live, last.lineId);
    if t in PicksNamed(live, front).value {
      PicksFromCombos(live, front, t);
      var l :| l in live && l.id == t.lineId && l.parent.Some? && Named(front, l.parent.value);
      NamedMore(front, last, l.parent.value);
    } else {
      PickTargetsFrom(live, line.value, last.quantity, t);
      NamedMore(front, last, line.value.id);
    }
  }

  lemma {:induction false} BroughtOnBill(live: seq<Line>, given: seq<Target>)
    requires PicksNamed(live, given).Ok?
    ensures AllOnBill(live, given + PicksNamed(live, given).value) <==> AllOnBill(live, given)
  {
    var picks := PicksNamed(live, given).value;
    var all := given + picks;
    if AllOnBill(live, given) {
      forall i | 0 <= i < |all|
        ensures OnBill(live, all[i].lineId)
      {
        if i >= |given| {
          assert picks[i - |given|] in picks;
          PicksFromCombos(live, given, all[i]);
        }
      }
    }
    if AllOnBill(live, all) {
      assert forall i :: 0 <= i < |given| ==> given[i] == all[i];
    }
  }

  /** A top line gets exactly what was asked; nothing is brought along onto it. */
  lemma {:induction false} TopTargets(live: seq<Line>, given: seq<Target>, l: Line)
    requires Distinct(live) && PicksNamed(live, given).Ok? && l in live && l.parent.None?
    ensures Targeted(given + PicksNamed(live, given).value, l.id) == Targeted(given, l.id)
  {
    var picks := PicksNamed(live, given).value;
    SumByConcat(given, picks, TargetFor(l.id));
    NoComboBrought(live, given, l);
  }

  /** A combo's picks fit when the combo does. */
  lemma {:induction false} PickFits(pq: int, cq: int, rp: int, rc: int, tp: int, tc: int)
    requires pq > 0 && cq > 0 && rc * pq == rp * cq && tc * pq == tp * cq && rp + tp <= pq
    ensures rc + tc <= cq
  {
    RatioStep(rc, tc, rp, tp, pq, cq);
    MultipleGap(cq, pq, rp + tp, 0);
    if rc + tc > cq {
      MultipleGap(pq, rc + tc, cq, 1);
    }
  }

  lemma {:induction false} ComboIsTop(lines: seq<Line>, next: Id, c: Line) returns (p: Line)
    requires LinesOk(lines, next) && c in Live(lines) && c.parent.Some?
    ensures p in Live(lines) && IsParentOf(p, c) && p.parent.None?
  {
    FilterMember(lines, IsLive, c);
    assert InFamily(lines, c);
    p :| p in lines && IsParentOf(p, c);
    assert InFamily(lines, p);
    FilterMember(lines, IsLive, p);
  }

  /** With the picks brought along, nothing is past its quantity exactly when no top line is. */
  lemma {:induction false} CappedIff(lines: seq<Line>, next: Id, prior: seq<NoteLine>, given: seq<Target>)
    requires LinesOk(lines, next) && UnitsOk(Live(lines), prior) && PicksNamed(Live(lines), given).Ok?
    ensures var live := Live(lines);
            Capped(live, prior, given + PicksNamed(live, given).value) <==>
              forall l :: l in live && l.parent.None? ==> Refunded(prior, l.id) + Targeted(given, l.id) <= l.quantity
  {
    var live := Live(lines);
    var targets := given + PicksNamed(live, given).value;
    FilterDistinct(lines, IsLive);
    forall l | l in live && l.parent.None?
      ensures Targeted(targets, l.id) == Targeted(given, l.id)
    {
      TopTargets(live, given, l);
    }
    if forall l :: l in live && l.parent.None? ==> Refunded(prior, l.id) + Targeted(given, l.id) <= l.quantity {
      forall c | c in live
        ensures Refunded(prior, c.id) + Targeted(targets, c.id) <= c.quantity
      {
        if c.parent.Some? {
          var p := ComboIsTop(lines, next, c);
          TargetsRatio(live, given, p, c);
          PickFits(p.quantity, c.quantity, Refunded(prior, p.id), Refunded(prior, c.id), Targeted(targets, p.id), Targeted(targets, c.id));
        }
      }
    }
  }

  lemma {:induction false} TopLinesOnly(live: seq<Line>, given: seq<Target>)
    requires Distinct(live)
    ensures (forall i :: 0 <= i < |given| ==> IsTopLine(live, given[i].lineId)) <==> NoPickIn(live, given) && AllOnBill(live, given)
  {
    if forall i :: 0 <= i < |given| ==> IsTopLine(live, given[i].lineId) {
      forall i, l | 0 <= i < |given| && l in live && l.id == given[i].lineId
        ensures l.parent.None?
      {
        assert IsTopLine(live, given[i].lineId);
        var m :| m in live && m.id == given[i].lineId && m.parent.None?;
        SameId(live, l, m);
      }
      forall i | 0 <= i < |given|
        ensures OnBill(live, given[i].lineId)
      {
        assert IsTopLine(live, given[i].lineId);
      }
    }
  }

  /** A request is accepted exactly when it names something, only top lines, and no more than is left of each. */
  lemma {:induction false} RequestAcceptedIff(lines: seq<Line>, next: Id, figures: Figures, notes: seq<Note>, request: seq<Target>)
    requires LinesOk(lines, next) && NotesOk(lines, figures, notes)
    ensures Refund(lines, figures, notes, Some(request)).Ok? <==> Refundable(Live(lines), AllLines(notes), request)
  {
    var live, prior := Live(lines), AllLines(notes);
    FilterDistinct(lines, IsLive);
    PicksNamedIff(live, request);
    TopLinesOnly(live, request);
    if request != [] && PicksNamed(live, request).Ok? {
      var targets := request + PicksNamed(live, request).value;
      NothingTaken(live, prior);
      TakeIff(live, prior, targets);
      BroughtOnBill(live, request);
      CappedIff(lines, next, prior, request);
    }
  }

  lemma {:induction false} NothingTaken(live: seq<Line>, prior: seq<NoteLine>)
    requires UnitsOk(live, prior)
    ensures Capped(live, prior, [])
  {
  }

  // ---- What the note holds ------------------------------------------------------------------------------

  lemma {:induction false} TakenFromTargets(live: seq<Line>, prior: seq<NoteLine>, targets: seq<Target>, i: nat)
    requires Take(live, prior, targets).Ok? && i < |targets|
    ensures |Take(live, prior, targets).value| == |targets| && Take(live, prior, targets).value[i].lineId == targets[i].lineId
  {
    var front := targets[..|targets| - 1];
    if |front| > 0 {
      TakenFromTargets(live, prior, front, if i < |front| then i else 0);
    }
  }

  lemma {:induction false} TargetAsked(live: seq<Line>, request: seq<Target>, t: Target, nl: NoteLine)
    requires Distinct(live) && PicksNamed(live, request).Ok? && t in request + PicksNamed(live, request).value
    requires nl.lineId == t.lineId && Priced(live, nl)
    ensures Asked(live, request, nl)
  {
    var l :| l in live && l.id == nl.lineId && nl.unitPrice == Unit(l);
    if t in request {
      assert Named(request, l.id);
    } else {
      PicksFromCombos(live, request, t);
      var m :| m in live && m.id == t.lineId && m.parent.Some? && Named(request, m.parent.value);
      SameId(live, l, m);
    }
  }

  lemma {:induction false} TargetsAre(live: seq<Line>, prior: seq<NoteLine>, request: seq<Target>)
    requires Targets(live, prior, Some(request)).Ok?
    ensures PicksNamed(live, request).Ok? && Targets(live, prior, Some(request)).value == request + PicksNamed(live, request).value
  {
  }

  lemma {:induction false} LinesAsked(live: seq<Line>, figures: Figures, notes: seq<Note>, request: seq<Target>, taken: seq<NoteLine>)
    requires Distinct(live) && UnitsOk(live, AllLines(notes)) && PicksNamed(live, request).Ok?
    requires Take(live, AllLines(notes), request + PicksNamed(live, request).value) == Ok(taken)
    ensures forall i :: 0 <= i < |NoteFor(figures, notes, taken).lines| ==> Asked(live, request, NoteFor(figures, notes, taken).lines[i])
  {
    var note := NoteFor(figures, notes, taken);
    var targets := request + PicksNamed(live, request).value;
    NoteForGross(figures, notes, taken);
    TakeUnits(live, AllLines(notes), targets);
    forall i | 0 <= i < |note.lines|
      ensures Asked(live, request, note.lines[i])
    {
      TakenFromTargets(live, AllLines(notes), targets, i);
      assert taken[i] in AllLines(notes) + taken;
      assert Priced(live, taken[i]);
      assert Priced(live, note.lines[i]);
      TargetAsked(live, request, targets[i], note.lines[i]);
    }
  }

  /** The note takes back exactly what the request names. */
  lemma {:induction false} RequestTakesExactly(lines: seq<Line>, next: Id, figures: Figures, notes: seq<Note>, request: seq<Target>)
    requires LinesOk(lines, next) && NotesOk(lines, figures, notes)
    requires Refund(lines, figures, notes, Some(request)).Ok?
    ensures TakesExactly(Live(lines), request, Refund(lines, figures, notes, Some(request)).value)
  {
    var live, prior := Live(lines), AllLines(notes);
    FilterDistinct(lines, IsLive);
    TargetsAre(live, prior, request);
    var targets := request + PicksNamed(live, request).value;
    var taken := Take(live, prior, targets).value;
    var note := NoteFor(figures, notes, taken);
    TakeUnits(live, prior, targets);
    LinesAsked(live, figures, notes, request, taken);
    forall id
      ensures Refunded(note.lines, id) == Targeted(targets, id)
    {
      NoteLinesUnits(figures, notes, taken, id);
    }
    forall l | l in live && l.parent.None?
      ensures Refunded(note.lines, l.id) == Targeted(request, l.id)
    {
      TopTargets(live, request, l);
    }
    forall p, c | p in live && c in live && IsParentOf(p, c)
      ensures Refunded(note.lines, c.id) * p.quantity == Targeted(request, p.id) * c.quantity
    {
      ComboAtTop(lines, next, p);
      TargetsRatio(live, request, p, c);
      TopTargets(live, request, p);
    }
  }

  lemma {:induction false} ComboAtTop(lines: seq<Line>, next: Id, p: Line)
    requires LinesOk(lines, next) && p in Live(lines) && p.kind.Combo?
    ensures p.parent.None?
  {
    FilterMember(lines, IsLive, p);
    assert InFamily(lines, p);
  }

  lemma {:induction false} NoteLinesUnits(figures: Figures, notes: seq<Note>, taken: seq<NoteLine>, id: Id)
    ensures Refunded(NoteFor(figures, notes, taken).lines, id) == Refunded(taken, id)
  {
    var note := NoteFor(figures, notes, taken);
    NoteForGross(figures, notes, taken);
    AmountsKeepUnits(taken, Allocate(note.subtotal, Grosses(taken)), id);
  }

  // ---- The transaction -----------------------------------------------------------------------------------

  /**
   * A refund of named lines goes through exactly when the bill is finalised, the request is refundable and a manager
   * approves; it then appends one note with exactly the named units, and nothing else on the order changes.
   */
  lemma {:induction false} RefundBillExact(tab: Tab, request: seq<Target>, approved: bool, clock: nat)
    requires TabOk(tab, clock) && tab.bill.Some?
    ensures var r := RefundBill(tab, Some(request), approved);
            var b := tab.bill.value;
            && (r.Ok? <==> b.status == Finalized && approved && Refundable(Live(tab.lines), AllLines(b.notes), request))
            && (r.Ok? ==>
                  && r.value == tab.(bill := Some(b.(notes := r.value.bill.value.notes)))
                  && |r.value.bill.value.notes| == |b.notes| + 1 && b.notes <= r.value.bill.value.notes
                  && TakesExactly(Live(tab.lines), request, r.value.bill.value.notes[|b.notes|]))
  {
    var b := tab.bill.value;
    if b.status == Finalized {
      RequestAcceptedIff(tab.lines, tab.next, FiguresOf(b), b.notes, request);
      if Refund(tab.lines, FiguresOf(b), b.notes, Some(request)).Ok? {
        RequestTakesExactly(tab.lines, tab.next, FiguresOf(b), b.notes, request);
      }
    }
  }
}
