/** Credit notes: which units a refund takes back, and what they are worth. */
module Refunds {
  import opened Prelude
  import opened Rounding
  import opened Allocation
  import opened Orders
  import opened Invoice

  datatype NoteLine = NoteLine(lineId: Id, quantity: nat, unitPrice: nat, amount: int)

  datatype Note = Note(subtotal: int, tax: int, lines: seq<NoteLine>)

  datatype Target = Target(lineId: Id, quantity: nat)

  /** The stored amounts of a finalised bill that a refund reads. */
  datatype Figures = Figures(subtotal: nat, net: nat, tax: nat)

  function AllLines(notes: seq<Note>): seq<NoteLine> {
    if |notes| == 0 then [] else AllLines(notes[..|notes| - 1]) + notes[|notes| - 1].lines
  }

  function QtyFor(id: Id): NoteLine -> int {
    (nl: NoteLine) => if nl.lineId == id then nl.quantity else 0
  }

  /** How many units of a line the given credit-note lines take back. */
  function Refunded(taken: seq<NoteLine>, id: Id): nat {
    SumByNonNegative(taken, QtyFor(id));
    SumBy(taken, QtyFor(id))
  }

  function GrossOf(nl: NoteLine): (r: int)
    ensures 0 <= r
  {
    nl.unitPrice * nl.quantity
  }

  /** Credit-note lines at full price, before the bill's discount. */
  function Gross(taken: seq<NoteLine>): nat {
    SumByNonNegative(taken, GrossOf);
    SumBy(taken, GrossOf)
  }

  function NoteSubtotal(n: Note): int {
    n.subtotal
  }

  function NoteTax(n: Note): int {
    n.tax
  }

  /** The part of a stored amount that a cumulative gross stands for, rounded down. */
  function Prorate(cumGross: nat, amount: nat, subtotal: nat): nat {
    if subtotal == 0 then 0 else cumGross * amount / subtotal
  }

  // ---- What is taken back ------------------------------------------------------------------------

  /** Every line's units that are not refunded yet. */
  function Remaining(lines: seq<Line>, prior: seq<NoteLine>): seq<Target> {
    if |lines| == 0 then [] else
      var rest := Remaining(lines[..|lines| - 1], prior);
      var last := lines[|lines| - 1];
      if last.quantity > Refunded(prior, last.id) then rest + [Target(last.id, last.quantity - Refunded(prior, last.id))] else rest
  }

  /** A combo brings its picks along in proportion. */
  function PickTargets(lines: seq<Line>, combo: Line, quantity: nat): seq<Target> {
    if |lines| == 0 then [] else
      var rest := PickTargets(lines[..|lines| - 1], combo, quantity);
      var last := lines[|lines| - 1];
      if last.parent == Some(combo.id) then rest + [Target(last.id, quantity * last.quantity / combo.quantity)] else rest
  }

  /** The picks of every combo named in the request; naming a pick itself is refused. */
  function PicksNamed(live: seq<Line>, given: seq<Target>): Result<seq<Target>> {
    if |given| == 0 then Ok([]) else
      var picks :- PicksNamed(live, given[..|given| - 1]);
      var last := given[|given| - 1];
      var line := Find(live, last.lineId);
      if line.Some? && line.value.parent.Some? then Err(ComboRefundWhole)
      else if line.Some? && line.value.kind.Combo? then Ok(picks + PickTargets(live, line.value, last.quantity))
      else Ok(picks)
  }

  function Targets(live: seq<Line>, prior: seq<NoteLine>, request: Option<seq<Target>>): Result<seq<Target>> {
    var targets := if request.Some? then request.value else Remaining(live, prior);
    if |targets| == 0 then Err(NothingToRefund)
    else if request.None? then Ok(targets)
    else
      var picks :- PicksNamed(live, targets);
      Ok(targets + picks)
  }

  /** Prices the targets one by one, each counted before the next is checked. */
  function Take(live: seq<Line>, prior: seq<NoteLine>, targets: seq<Target>): Result<seq<NoteLine>> {
    if |targets| == 0 then Ok([]) else
      var front :- Take(live, prior, targets[..|targets| - 1]);
      var target := targets[|targets| - 1];
      var line := Find(live, target.lineId);
      if line.None? then Err(ValidationFailed)
      else if target.quantity > line.value.quantity - Refunded(prior + front, target.lineId) then Err(OverRefund)
      else Ok(front + [NoteLine(target.lineId, target.quantity, Unit(line.value), Unit(line.value) * target.quantity)])
  }

  function Grosses(taken: seq<NoteLine>): seq<nat> {
    seq(|taken|, i requires 0 <= i < |taken| => GrossOf(taken[i]))
  }

  function WithAmounts(taken: seq<NoteLine>, amounts: seq<int>): seq<NoteLine>
    requires |taken| == |amounts|
  {
    seq(|taken|, i requires 0 <= i < |taken| => taken[i].(amount := amounts[i]))
  }

  /** The note for the taken lines: cumulative proration less what earlier notes took, cut across its lines. */
  function NoteFor(figures: Figures, notes: seq<Note>, taken: seq<NoteLine>): Note {
    var cumGross := Gross(AllLines(notes)) + Gross(taken);
    CutNote(
      NewPart(cumGross, figures.net, figures.subtotal, SumBy(notes, NoteSubtotal)),
      NewPart(cumGross, figures.tax, figures.subtotal, SumBy(notes, NoteTax)),
      taken)
  }

  /** What everything refunded so far is worth, less what earlier notes took. */
  function NewPart(cumGross: nat, amount: nat, whole: nat, taken: int): nat {
    Max(0, Prorate(cumGross, amount, whole) - taken)
  }

  /** A note whose subtotal is cut across its lines by their gross. */
  function CutNote(subtotal: nat, tax: nat, taken: seq<NoteLine>): Note {
    AllocateLength(subtotal, Grosses(taken));
    Note(subtotal, tax, WithAmounts(taken, Allocate(subtotal, Grosses(taken))))
  }

  function Refund(lines: seq<Line>, figures: Figures, notes: seq<Note>, request: Option<seq<Target>>): Result<Note> {
    var live := Live(lines);
    var targets :- Targets(live, AllLines(notes), request);
    var taken :- Take(live, AllLines(notes), targets);
    Ok(NoteFor(figures, notes, taken))
  }

  // ---- The invariant of a bill's credit notes -------------------------------------------------------

  ghost predicate Priced(live: seq<Line>, nl: NoteLine) {
    exists l :: l in live && l.id == nl.lineId && nl.unitPrice == Unit(l)
  }

  function NoteLineAmount(nl: NoteLine): int {
    nl.amount
  }

  /** A note's lines are never negative and add up to its subtotal. */
  ghost predicate NoteExact(n: Note) {
    && 0 <= n.subtotal && 0 <= n.tax
    && (forall nl :: nl in n.lines ==> 0 <= nl.amount)
    && SumBy(n.lines, NoteLineAmount) == n.subtotal
  }

  ghost predicate UnitsOk(live: seq<Line>, taken: seq<NoteLine>) {
    && (forall nl :: nl in taken ==> Priced(live, nl))
    && (forall l :: l in live ==> Refunded(taken, l.id) <= l.quantity)
    && (forall p, c :: p in live && c in live && IsParentOf(p, c) ==> Refunded(taken, c.id) * p.quantity == Refunded(taken, p.id) * c.quantity)
  }

  ghost predicate NotesOk(lines: seq<Line>, figures: Figures, notes: seq<Note>) {
    && UnitsOk(Live(lines), AllLines(notes))
    && SumBy(notes, NoteSubtotal) == Prorate(Gross(AllLines(notes)), figures.net, figures.subtotal)
    && SumBy(notes, NoteTax) == Prorate(Gross(AllLines(notes)), figures.tax, figures.subtotal)
    && (forall n :: n in notes ==> NoteExact(n))
  }

  // ---- Proration --------------------------------------------------------------------------------------

  /** The prorated part is the whole number of units at or just below its exact share. */
  lemma {:induction false} ProrateFloor(cumGross: nat, amount: nat, subtotal: nat)
    ensures subtotal == 0 ==> Prorate(cumGross, amount, subtotal) == 0
    ensures subtotal > 0 ==> subtotal * Prorate(cumGross, amount, subtotal) <= cumGross * amount < subtotal * Prorate(cumGross, amount, subtotal) + subtotal
  {
    if subtotal > 0 {
      DivBounds(cumGross * amount, subtotal);
    }
  }

  lemma {:induction false} ProrateMonotone(a: nat, b: nat, amount: nat, subtotal: nat)
    requires a <= b
    ensures Prorate(a, amount, subtotal) <= Prorate(b, amount, subtotal)
  {
    if subtotal > 0 {
      assert a * amount <= b * amount by {
        Distribute(amount, a, b - a);
      }
      DivMonotone(a * amount, b * amount, subtotal);
    }
  }

  lemma {:induction false} DivMonotone(x: int, y: int, d: int)
    requires x <= y && d > 0
    ensures x / d <= y / d
  {
    DivBounds(x, d);
    DivBounds(y, d);
    if x / d > y / d {
      MultipleGap(d, x / d, y / d, 1);
    }
  }

  lemma {:induction false} ProrateWhole(amount: nat, subtotal: nat)
    requires subtotal == 0 ==> amount == 0
    ensures Prorate(subtotal, amount, subtotal) == amount
  {
    if subtotal > 0 {
      DivBounds(subtotal * amount, subtotal);
      SameMultiple(subtotal, subtotal * amount / subtotal, amount);
    }
  }

  // ---- Gross by line ------------------------------------------------------------------------------------

  function TakenFrom(taken: seq<NoteLine>): Line -> int {
    (l: Line) => Refunded(taken, l.id) * Unit(l)
  }

  function OnlyFor(nl: NoteLine): Line -> int {
    (l: Line) => if l.id == nl.lineId then nl.quantity * Unit(l) else 0
  }

  lemma {:induction false} OneLine(live: seq<Line>, nl: NoteLine, l: Line)
    requires Distinct(live) && l in live && l.id == nl.lineId
    ensures SumBy(live, OnlyFor(nl)) == nl.quantity * Unit(l)
  {
    var front, last := live[..|live| - 1], live[|live| - 1];
    if last.id == l.id {
      SameId(live, last, l);
      forall m | m in front
        ensures OnlyFor(nl)(m) == 0
      {
        var i :| 0 <= i < |front| && front[i] == m;
        assert live[i] == m;
      }
      SumByEqual(front, OnlyFor(nl), Nothing);
      ZeroSum(front);
    } else {
      assert l in front;
      OneLine(front, nl, l);
    }
  }

  /** The refunded gross, line by line of the order. */
  lemma {:induction false} GrossByLine(live: seq<Line>, taken: seq<NoteLine>)
    requires Distinct(live)
    requires forall nl :: nl in taken ==> Priced(live, nl)
    ensures Gross(taken) == SumBy(live, TakenFrom(taken))
  {
    if |taken| == 0 {
      SumByEqual(live, TakenFrom(taken), Nothing);
      ZeroSum(live);
    } else {
      var front, last := taken[..|taken| - 1], taken[|taken| - 1];
      assert last in taken;
      assert forall nl :: nl in front ==> nl in taken;
      GrossByLine(live, front);
      forall l | l in live
        ensures TakenFrom(taken)(l) == TakenFrom(front)(l) + OnlyFor(last)(l)
      {
        Distribute(Unit(l), Refunded(front, l.id), last.quantity);
      }
      SumByAdd(live, TakenFrom(front), OnlyFor(last), TakenFrom(taken));
      var l :| l in live && l.id == last.lineId && last.unitPrice == Unit(l);
      OneLine(live, last, l);
    }
  }

  /** No more than the order's subtotal is ever refunded, and all of it exactly when every unit is. */
  lemma {:induction false} GrossWithinSubtotal(lines: seq<Line>, next: Id, taken: seq<NoteLine>)
    requires LinesOk(lines, next) && UnitsOk(Live(lines), taken)
    ensures Gross(taken) <= Subtotal(lines)
    ensures (forall l :: l in Live(lines) ==> Refunded(taken, l.id) == l.quantity) ==> Gross(taken) == Subtotal(lines)
  {
    var live := Live(lines);
    FilterDistinct(lines, IsLive);
    GrossByLine(live, taken);
    LiveSubtotal(lines);
    forall l | l in live
      ensures TakenFrom(taken)(l) <= Amount(l)
    {
      Distribute(Unit(l), Refunded(taken, l.id), l.quantity - Refunded(taken, l.id));
    }
    SumByMono(live, TakenFrom(taken), Amount);
    if forall l :: l in live ==> Refunded(taken, l.id) == l.quantity {
      SumByEqual(live, TakenFrom(taken), Amount);
    }
  }

  // ---- Units ----------------------------------------------------------------------------------------------

  function TargetFor(id: Id): Target -> int {
    (t: Target) => if t.lineId == id then t.quantity else 0
  }

  function Targeted(targets: seq<Target>, id: Id): nat {
    SumByNonNegative(targets, TargetFor(id));
    SumBy(targets, TargetFor(id))
  }

  lemma {:induction false} TakeUnits(live: seq<Line>, prior: seq<NoteLine>, targets: seq<Target>)
    requires Distinct(live)
    requires forall nl :: nl in prior ==> Priced(live, nl)
    requires forall l :: l in live ==> Refunded(prior, l.id) <= l.quantity
    requires Take(live, prior, targets).Ok?
    ensures var taken := Take(live, prior, targets).value;
            && |taken| == |targets|
            && (forall id :: Refunded(taken, id) == Targeted(targets, id))
            && (forall nl :: nl in prior + taken ==> Priced(live, nl))
            && (forall l :: l in live ==> Refunded(prior + taken, l.id) <= l.quantity)
  {
    var taken := Take(live, prior, targets).value;
    if |targets| == 0 {
      assert prior + taken == prior;
    } else {
      var target := targets[|targets| - 1];
      TakeUnits(live, prior, targets[..|targets| - 1]);
      var front := Take(live, prior, targets[..|targets| - 1]).value;
      var last := taken[|front|];
      assert prior + taken == (prior + front) + [last];
      forall id
        ensures Refunded(taken, id) == Refunded(front, id) + QtyFor(id)(last)
        ensures Refunded(prior + taken, id) == Refunded(prior + front, id) + QtyFor(id)(last)
      {
        SumBySnoc(front, last, QtyFor(id));
        SumBySnoc(prior + front, last, QtyFor(id));
      }
      var line := Find(live, target.lineId).value;
      assert Priced(live, last);
      forall l | l in live && l.id == target.lineId
        ensures l == line
      {
        SameId(live, l, line);
      }
    }
  }

  lemma {:induction false} ConcatRefunded(prior: seq<NoteLine>, taken: seq<NoteLine>, id: Id)
    ensures Refunded(prior + taken, id) == Refunded(prior, id) + Refunded(taken, id)
  {
    SumByConcat(prior, taken, QtyFor(id));
  }

  /** A refund of everything left targets exactly the units left. */
  lemma {:induction false} RemainingUnits(lines: seq<Line>, prior: seq<NoteLine>, l: Line)
    requires Distinct(lines) && l in lines && Refunded(prior, l.id) <= l.quantity
    ensures Targeted(Remaining(lines, prior), l.id) == l.quantity - Refunded(prior, l.id)
  {
    var front, last := lines[..|lines| - 1], lines[|lines| - 1];
    var rest := Remaining(front, prior);
    SumBySnoc(rest, Target(last.id, Max(0, last.quantity - Refunded(prior, last.id))), TargetFor(l.id));
    if last.id == l.id {
      SameId(lines, last, l);
      forall m | m in front
        ensures m.id != l.id
      {
        var i :| 0 <= i < |front| && front[i] == m;
        assert lines[i] == m;
      }
      NotRemaining(front, prior, l.id);
    } else {
      assert l in front;
      RemainingUnits(front, prior, l);
    }
  }

  lemma {:induction false} NotRemaining(lines: seq<Line>, prior: seq<NoteLine>, id: Id)
    requires forall m :: m in lines ==> m.id != id
    ensures Targeted(Remaining(lines, prior), id) == 0
  {
    if |lines| > 0 {
      var front, last := lines[..|lines| - 1], lines[|lines| - 1];
      assert last in lines;
      NotRemaining(front, prior, id);
      SumBySnoc(Remaining(front, prior), Target(last.id, Max(0, last.quantity - Refunded(prior, last.id))), TargetFor(id));
    }
  }

  /** A pick's share of a combo refund divides without remainder. */
  lemma {:induction false} PickShareExact(p: Line, c: Line, quantity: nat)
    requires IsParentOf(p, c)
    ensures (quantity * c.quantity / p.quantity) * p.quantity == quantity * c.quantity
  {
    var per := c.quantity / p.quantity;
    assert quantity * c.quantity == p.quantity * (quantity * per) by {
      Reassociate(quantity, p.quantity, per);
      assert quantity * (per * p.quantity) == (quantity * p.quantity) * per;
    }
    DivBounds(quantity * c.quantity, p.quantity);
    SameMultiple(p.quantity, quantity * c.quantity / p.quantity, quantity * per);
  }

  lemma {:induction false} PickTargetsUnits(lines: seq<Line>, combo: Line, quantity: nat, l: Line)
    requires Distinct(lines) && l in lines
    ensures Targeted(PickTargets(lines, combo, quantity), l.id) == if l.parent == Some(combo.id) then quantity * l.quantity / combo.quantity else 0
  {
    var front, last := lines[..|lines| - 1], lines[|lines| - 1];
    SumBySnoc(PickTargets(front, combo, quantity), Target(last.id, quantity * last.quantity / combo.quantity), TargetFor(l.id));
    if last.id == l.id {
      SameId(lines, last, l);
      forall m | m in front
        ensures m.id != l.id
      {
        var i :| 0 <= i < |front| && front[i] == m;
        assert lines[i] == m;
      }
      NotPickTarget(front, combo, quantity, l.id);
    } else {
      assert l in front;
      PickTargetsUnits(front, combo, quantity, l);
    }
  }

  lemma {:induction false} NotPickTarget(lines: seq<Line>, combo: Line, quantity: nat, id: Id)
    requires forall m :: m in lines ==> m.id != id
    ensures Targeted(PickTargets(lines, combo, quantity), id) == 0
  {
    if |lines| > 0 {
      var front, last := lines[..|lines| - 1], lines[|lines| - 1];
      assert last in lines;
      NotPickTarget(front, combo, quantity, id);
      SumBySnoc(PickTargets(front, combo, quantity), Target(last.id, quantity * last.quantity / combo.quantity), TargetFor(id));
    }
  }

  /** A pick is never named itself. */
  lemma {:induction false} NoPickNamed(live: seq<Line>, given: seq<Target>, c: Line)
    requires Distinct(live) && c in live && c.parent.Some?
    requires PicksNamed(live, given).Ok?
    ensures Targeted(given, c.id) == 0
  {
    if |given| > 0 {
      var last := given[|given| - 1];
      NoPickNamed(live, given[..|given| - 1], c);
      var line := Find(live, last.lineId);
      if last.lineId == c.id && line.Some? {
        SameId(live, line.value, c);
      }
    }
  }

  /** The picks brought along contain no combo. */
  lemma {:induction false} NoComboBrought(live: seq<Line>, given: seq<Target>, p: Line)
    requires Distinct(live) && p in live && p.parent.None?
    requires PicksNamed(live, given).Ok?
    ensures Targeted(PicksNamed(live, given).value, p.id) == 0
  {
    if |given| > 0 {
      var last := given[|given| - 1];
      NoComboBrought(live, given[..|given| - 1], p);
      var line := Find(live, last.lineId);
      if line.Some? && line.value.kind.Combo? {
        SumByConcat(PicksNamed(live, given[..|given| - 1]).value, PickTargets(live, line.value, last.quantity), TargetFor(p.id));
        PickTargetsUnits(live, line.value, last.quantity, p);
      }
    }
  }

  /** Naming combos brings each pick along in the combo's ratio. */
  lemma {:induction false} NamedRatio(live: seq<Line>, given: seq<Target>, p: Line, c: Line)
    requires Distinct(live) && p in live && c in live && IsParentOf(p, c) && p.parent.None?
    requires PicksNamed(live, given).Ok?
    ensures Targeted(PicksNamed(live, given).value, c.id) * p.quantity == Targeted(given, p.id) * c.quantity
  {
    if |given| > 0 {
      var front, last := given[..|given| - 1], given[|given| - 1];
      NamedRatio(live, front, p, c);
      var picks := PicksNamed(live, front).value;
      var line := Find(live, last.lineId);
      if last.lineId == p.id {
        SameId(live, line.value, p);
        var more := PickTargets(live, p, last.quantity);
        SumByConcat(picks, more, TargetFor(c.id));
        PickTargetsUnits(live, p, last.quantity, c);
        PickShareExact(p, c, last.quantity);
        RatioStep(Targeted(picks, c.id), last.quantity * c.quantity / p.quantity, Targeted(front, p.id), last.quantity, p.quantity, c.quantity);
      } else if line.Some? && line.value.kind.Combo? {
        SumByConcat(picks, PickTargets(live, line.value, last.quantity), TargetFor(c.id));
        PickTargetsUnits(live, line.value, last.quantity, c);
      }
    }
  }

  lemma {:induction false} RatioStep(a: int, b: int, x: int, y: int, p: int, c: int)
    requires a * p == x * c && b * p == y * c
    ensures (a + b) * p == (x + y) * c
  {
    Distribute(p, a, b);
    Distribute(c, x, y);
  }

  // ---- A note's amounts --------------------------------------------------------------------------------------

  lemma {:induction false} AmountsSum(taken: seq<NoteLine>, amounts: seq<int>)
    requires |taken| == |amounts|
    ensures SumBy(WithAmounts(taken, amounts), NoteLineAmount) == Sum(amounts)
    ensures Gross(WithAmounts(taken, amounts)) == Gross(taken)
  {
    if |taken| > 0 {
      var n := |taken| - 1;
      AmountsSum(taken[..n], amounts[..n]);
      assert WithAmounts(taken, amounts)[..n] == WithAmounts(taken[..n], amounts[..n]);
    }
  }

  lemma {:induction false} NoteForExact(figures: Figures, notes: seq<Note>, taken: seq<NoteLine>)
    requires |taken| > 0
    ensures NoteExact(NoteFor(figures, notes, taken))
  {
    var note := NoteFor(figures, notes, taken);
    var weights := Grosses(taken);
    AllocateSumsExactly(note.subtotal, weights);
    AllocateLength(note.subtotal, weights);
    AmountsSum(taken, Allocate(note.subtotal, weights));
    forall i | 0 <= i < |note.lines|
      ensures 0 <= note.lines[i].amount
    {
      AllocateFair(note.subtotal, weights, i);
    }
  }

  lemma {:induction false} AmountsKeepUnits(taken: seq<NoteLine>, amounts: seq<int>, id: Id)
    requires |taken| == |amounts|
    ensures Refunded(WithAmounts(taken, amounts), id) == Refunded(taken, id)
  {
    if |taken| > 0 {
      var n := |taken| - 1;
      AmountsKeepUnits(taken[..n], amounts[..n], id);
      assert WithAmounts(taken, amounts)[..n] == WithAmounts(taken[..n], amounts[..n]);
    }
  }

  // ---- A refund keeps the invariant ------------------------------------------------------------------------------

  lemma {:induction false} RestRatio(pq: int, cq: int, rp: int, rc: int)
    requires rc * pq == rp * cq
    ensures (cq - rc) * pq == (pq - rp) * cq
  {
  }

  /** What is left of a combo and its picks is in their ratio too. */
  lemma {:induction false} RemainingRatio(live: seq<Line>, prior: seq<NoteLine>, p: Line, c: Line)
    requires Distinct(live) && p in live && c in live && IsParentOf(p, c) && UnitsOk(live, prior)
    ensures Targeted(Remaining(live, prior), c.id) * p.quantity == Targeted(Remaining(live, prior), p.id) * c.quantity
  {
    RemainingUnits(live, prior, p);
    RemainingUnits(live, prior, c);
    RestRatio(p.quantity, c.quantity, Refunded(prior, p.id), Refunded(prior, c.id));
  }

  lemma {:induction false} RequestRatio(live: seq<Line>, prior: seq<NoteLine>, request: Option<seq<Target>>, p: Line, c: Line)
    requires Distinct(live) && p in live && c in live && IsParentOf(p, c) && p.parent.None? && UnitsOk(live, prior)
    requires Targets(live, prior, request).Ok?
    ensures var targets := Targets(live, prior, request).value;
            Targeted(targets, c.id) * p.quantity == Targeted(targets, p.id) * c.quantity
  {
    if request.None? {
      RemainingRatio(live, prior, p, c);
    } else {
      TargetsRatio(live, request.value, p, c);
    }
  }

  /** The units taken so far and by this request stay in every combo's ratio. */
  lemma {:induction false} RatioKept(lines: seq<Line>, next: Id, prior: seq<NoteLine>, request: Option<seq<Target>>, taken: seq<NoteLine>, p: Line, c: Line)
    requires LinesOk(lines, next) && UnitsOk(Live(lines), prior)
    requires p in Live(lines) && c in Live(lines) && IsParentOf(p, c)
    requires Targets(Live(lines), prior, request).Ok?
    requires forall id :: Refunded(taken, id) == Targeted(Targets(Live(lines), prior, request).value, id)
    ensures Refunded(prior + taken, c.id) * p.quantity == Refunded(prior + taken, p.id) * c.quantity
  {
    FilterDistinct(lines, IsLive);
    FilterMember(lines, IsLive, p);
    assert InFamily(lines, p);
    ConcatRefunded(prior, taken, p.id);
    ConcatRefunded(prior, taken, c.id);
    RequestRatio(Live(lines), prior, request, p, c);
    RatioStep(Refunded(prior, c.id), Refunded(taken, c.id), Refunded(prior, p.id), Refunded(taken, p.id), p.quantity, c.quantity);
  }

  /** A request with its brought-along picks names a combo and its picks in their ratio. */
  lemma {:induction false} TargetsRatio(live: seq<Line>, given: seq<Target>, p: Line, c: Line)
    requires Distinct(live) && p in live && c in live && IsParentOf(p, c) && p.parent.None?
    requires PicksNamed(live, given).Ok?
    ensures var targets := given + PicksNamed(live, given).value;
            Targeted(targets, c.id) * p.quantity == Targeted(targets, p.id) * c.quantity
  {
    var picks := PicksNamed(live, given).value;
    NoPickNamed(live, given, c);
    NoComboBrought(live, given, p);
    NamedRatio(live, given, p, c);
    SumByConcat(given, picks, TargetFor(p.id));
    SumByConcat(given, picks, TargetFor(c.id));
  }

  lemma {:induction false} RefundUnitsOk(lines: seq<Line>, next: Id, prior: seq<NoteLine>, request: Option<seq<Target>>)
    requires LinesOk(lines, next) && UnitsOk(Live(lines), prior)
    requires Targets(Live(lines), prior, request).Ok?
    requires Take(Live(lines), prior, Targets(Live(lines), prior, request).value).Ok?
    ensures var taken := Take(Live(lines), prior, Targets(Live(lines), prior, request).value).value;
            && |taken| > 0
            && UnitsOk(Live(lines), prior + taken)
  {
    var live := Live(lines);
    var targets := Targets(live, prior, request).value;
    FilterDistinct(lines, IsLive);
    TakeUnits(live, prior, targets);
    var taken := Take(live, prior, targets).value;
    forall p, c | p in live && c in live && IsParentOf(p, c)
      ensures Refunded(prior + taken, c.id) * p.quantity == Refunded(prior + taken, p.id) * c.quantity
    {
      RatioKept(lines, next, prior, request, taken, p, c);
    }
  }

  lemma {:induction false} SameUnitsOk(live: seq<Line>, prior: seq<NoteLine>, taken: seq<NoteLine>, amounts: seq<int>)
    requires |taken| == |amounts| && UnitsOk(live, prior + taken)
    ensures UnitsOk(live, prior + WithAmounts(taken, amounts))
  {
    var priced := WithAmounts(taken, amounts);
    forall id
      ensures Refunded(prior + priced, id) == Refunded(prior + taken, id)
    {
      ConcatRefunded(prior, priced, id);
      ConcatRefunded(prior, taken, id);
      AmountsKeepUnits(taken, amounts, id);
    }
    forall nl | nl in prior + priced
      ensures Priced(live, nl)
    {
      if nl in prior {
        assert nl in prior + taken;
      } else {
        var i :| 0 <= i < |priced| && priced[i] == nl;
        assert (prior + taken)[|prior| + i] == taken[i];
        assert Priced(live, taken[i]);
      }
    }
  }

  lemma {:induction false} NoteForGross(figures: Figures, notes: seq<Note>, taken: seq<NoteLine>)
    ensures var note := NoteFor(figures, notes, taken);
            && |Allocate(note.subtotal, Grosses(taken))| == |taken|
            && note.lines == WithAmounts(taken, Allocate(note.subtotal, Grosses(taken)))
            && AllLines(notes + [note]) == AllLines(notes) + note.lines
            && Gross(AllLines(notes + [note])) == Gross(AllLines(notes)) + Gross(taken)
  {
    var note := NoteFor(figures, notes, taken);
    AllocateLength(note.subtotal, Grosses(taken));
    assert (notes + [note])[..|notes|] == notes;
    SumByConcat(AllLines(notes), note.lines, GrossOf);
    AmountsSum(taken, Allocate(note.subtotal, Grosses(taken)));
  }

  /** Cumulative proration telescopes: the zero guard never acts. */
  lemma {:induction false} NoteForTelescopes(figures: Figures, notes: seq<Note>, taken: seq<NoteLine>)
    requires SumBy(notes, NoteSubtotal) == Prorate(Gross(AllLines(notes)), figures.net, figures.subtotal)
    requires SumBy(notes, NoteTax) == Prorate(Gross(AllLines(notes)), figures.tax, figures.subtotal)
    ensures var note := NoteFor(figures, notes, taken);
            && SumBy(notes + [note], NoteSubtotal) == Prorate(Gross(AllLines(notes + [note])), figures.net, figures.subtotal)
            && SumBy(notes + [note], NoteTax) == Prorate(Gross(AllLines(notes + [note])), figures.tax, figures.subtotal)
  {
    var note := NoteFor(figures, notes, taken);
    var prior := Gross(AllLines(notes));
    NoteForGross(figures, notes, taken);
    NoteForParts(figures, notes, taken);
    PartTelescopes(prior, Gross(taken), figures.net, figures.subtotal);
    PartTelescopes(prior, Gross(taken), figures.tax, figures.subtotal);
  }

  lemma {:induction false} NoteForParts(figures: Figures, notes: seq<Note>, taken: seq<NoteLine>)
    ensures var note := NoteFor(figures, notes, taken);
            var gross := Gross(AllLines(notes)) + Gross(taken);
            && SumBy(notes + [note], NoteSubtotal) == SumBy(notes, NoteSubtotal) + NewPart(gross, figures.net, figures.subtotal, SumBy(notes, NoteSubtotal))
            && SumBy(notes + [note], NoteTax) == SumBy(notes, NoteTax) + NewPart(gross, figures.tax, figures.subtotal, SumBy(notes, NoteTax))
  {
    var note := NoteFor(figures, notes, taken);
    SumBySnoc(notes, note, NoteSubtotal);
    SumBySnoc(notes, note, NoteTax);
  }

  /** What earlier notes took and the new part are together the proration of everything refunded. */
  lemma {:induction false} PartTelescopes(prior: nat, gross: nat, amount: nat, whole: nat)
    ensures Prorate(prior, amount, whole) + NewPart(prior + gross, amount, whole, Prorate(prior, amount, whole)) == Prorate(prior + gross, amount, whole)
  {
    ProrateMonotone(prior, prior + gross, amount, whole);
  }

  /** Every refund that goes through leaves the bill's credit notes consistent. */
  lemma {:induction false} RefundOk(lines: seq<Line>, next: Id, figures: Figures, notes: seq<Note>, request: Option<seq<Target>>)
    requires LinesOk(lines, next) && NotesOk(lines, figures, notes)
    requires Refund(lines, figures, notes, request).Ok?
    ensures NotesOk(lines, figures, notes + [Refund(lines, figures, notes, request).value])
  {
    var live, prior := Live(lines), AllLines(notes);
    var note := Refund(lines, figures, notes, request).value;
    var taken := Take(live, prior, Targets(live, prior, request).value).value;
    RefundUnitsOk(lines, next, prior, request);
    NoteForExact(figures, notes, taken);
    NoteForGross(figures, notes, taken);
    NoteForTelescopes(figures, notes, taken);
    SameUnitsOk(live, prior, taken, Allocate(note.subtotal, Grosses(taken)));
  }

  // ---- What the invariant means to the customer ---------------------------------------------------------------------

  /** Refunds never exceed what was billed, and refunding every unit returns exactly what was billed. */
  lemma {:induction false} RefundsWithinBill(lines: seq<Line>, next: Id, figures: Figures, notes: seq<Note>)
    requires LinesOk(lines, next) && NotesOk(lines, figures, notes)
    requires figures.subtotal == Subtotal(lines) && (figures.subtotal == 0 ==> figures.net == 0 && figures.tax == 0)
    ensures 0 <= SumBy(notes, NoteSubtotal) <= figures.net
    ensures 0 <= SumBy(notes, NoteTax) <= figures.tax
    ensures (forall l :: l in Live(lines) ==> Refunded(AllLines(notes), l.id) == l.quantity) ==>
              && SumBy(notes, NoteSubtotal) == figures.net
              && SumBy(notes, NoteTax) == figures.tax
  {
    var gross := Gross(AllLines(notes));
    GrossWithinSubtotal(lines, next, AllLines(notes));
    ProrateMonotone(gross, figures.subtotal, figures.net, figures.subtotal);
    ProrateMonotone(gross, figures.subtotal, figures.tax, figures.subtotal);
    ProrateWhole(figures.net, figures.subtotal);
    ProrateWhole(figures.tax, figures.subtotal);
  }

  lemma {:induction false} NoteForUnits(figures: Figures, notes: seq<Note>, taken: seq<NoteLine>, id: Id)
    ensures Refunded(AllLines(notes + [NoteFor(figures, notes, taken)]), id) == Refunded(AllLines(notes), id) + Refunded(taken, id)
  {
    var note := NoteFor(figures, notes, taken);
    NoteForGross(figures, notes, taken);
    ConcatRefunded(AllLines(notes), note.lines, id);
    AmountsKeepUnits(taken, Allocate(note.subtotal, Grosses(taken)), id);
  }

  /** The whole-bill refund is never refused while units remain, and afterwards none do. */
  lemma {:induction false} RefundAllReturnsRest(lines: seq<Line>, next: Id, figures: Figures, notes: seq<Note>)
    requires LinesOk(lines, next) && NotesOk(lines, figures, notes)
    ensures Refund(lines, figures, notes, None).Ok? <==> exists l :: l in Live(lines) && Refunded(AllLines(notes), l.id) < l.quantity
    ensures Refund(lines, figures, notes, None).Ok? ==>
              forall l :: l in Live(lines) ==> Refunded(AllLines(notes + [Refund(lines, figures, notes, None).value]), l.id) == l.quantity
  {
    var live, prior := Live(lines), AllLines(notes);
    FilterDistinct(lines, IsLive);
    var targets := Remaining(live, prior);
    RemainingNonEmpty(live, prior);
    TakeRemaining(live, prior, live);
    if |targets| > 0 {
      var taken := Take(live, prior, targets).value;
      TakeUnits(live, prior, targets);
      forall l | l in live
        ensures Refunded(AllLines(notes + [NoteFor(figures, notes, taken)]), l.id) == l.quantity
      {
        RemainingUnits(live, prior, l);
        NoteForUnits(figures, notes, taken, l.id);
      }
    }
  }

  lemma {:induction false} RemainingNonEmpty(lines: seq<Line>, prior: seq<NoteLine>)
    ensures |Remaining(lines, prior)| > 0 <==> exists l :: l in lines && Refunded(prior, l.id) < l.quantity
  {
    if |lines| > 0 {
      var front, last := lines[..|lines| - 1], lines[|lines| - 1];
      assert lines == front + [last];
      RemainingNonEmpty(front, prior);
      assert last in lines;
      if l :| l in front && Refunded(prior, l.id) < l.quantity {
        assert l in lines;
      }
    }
  }

  /** One more target that its line still covers is taken at the line's price. */
  lemma {:induction false} TakeNext(live: seq<Line>, prior: seq<NoteLine>, rest: seq<Target>, target: Target, line: Line)
    requires Distinct(live) && line in live && line.id == target.lineId && Take(live, prior, rest).Ok?
    requires Refunded(prior + Take(live, prior, rest).value, line.id) + target.quantity <= line.quantity
    ensures Take(live, prior, rest + [target]) ==
      Ok(Take(live, prior, rest).value + [NoteLine(line.id, target.quantity, Unit(line), Unit(line) * target.quantity)])
  {
    assert (rest + [target])[..|rest|] == rest;
    SameId(live, Find(live, line.id).value, line);
  }

  lemma {:induction false} UnitsNext(taken: seq<NoteLine>, rest: seq<Target>, nl: NoteLine, target: Target, id: Id)
    requires Refunded(taken, id) == Targeted(rest, id) && nl.lineId == target.lineId && nl.quantity == target.quantity
    ensures Refunded(taken + [nl], id) == Targeted(rest + [target], id)
  {
    SumBySnoc(taken, nl, QtyFor(id));
    SumBySnoc(rest, target, TargetFor(id));
  }

  /** Taking what remains is never refused. */
  lemma {:induction false} TakeRemaining(live: seq<Line>, prior: seq<NoteLine>, lines: seq<Line>)
    requires Distinct(live) && Distinct(lines) && forall l :: l in lines ==> l in live
    ensures Take(live, prior, Remaining(lines, prior)).Ok?
    ensures forall id :: Refunded(Take(live, prior, Remaining(lines, prior)).value, id) == Targeted(Remaining(lines, prior), id)
  {
    if |lines| > 0 {
      var front, last := lines[..|lines| - 1], lines[|lines| - 1];
      assert last in lines;
      assert forall l :: l in front ==> l in lines;
      TakeRemaining(live, prior, front);
      var rest := Remaining(front, prior);
      if last.quantity > Refunded(prior, last.id) {
        var target := Target(last.id, last.quantity - Refunded(prior, last.id));
        var taken := Take(live, prior, rest).value;
        var nl := NoteLine(last.id, target.quantity, Unit(last), Unit(last) * target.quantity);
        forall m | m in front
          ensures m.id != last.id
        {
          var i :| 0 <= i < |front| && front[i] == m;
          assert lines[i] == m;
        }
        NotRemaining(front, prior, last.id);
        ConcatRefunded(prior, taken, last.id);
        TakeNext(live, prior, rest, target, last);
        forall id
          ensures Refunded(taken + [nl], id) == Targeted(rest + [target], id)
        {
          UnitsNext(taken, rest, nl, target, id);
        }
      }
    }
  }
}
