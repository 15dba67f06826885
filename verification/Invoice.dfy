/** The printed lines of a bill: a combo prints as one line that includes its picks' extra charges. */
module Invoice {
  import opened Prelude
  import opened Rounding
  import opened Orders

  datatype InvoiceLine = InvoiceLine(quantity: int, unitPrice: int, lineTotal: int)

  predicate IsLive(l: Line) {
    !l.voided
  }

  predicate IsTop(l: Line) {
    l.parent.None?
  }

  predicate IsPick(l: Line) {
    l.parent.Some?
  }

  function Amount(l: Line): int {
    LineTotal(l)
  }

  function TopAmount(l: Line): int {
    if IsTop(l) then Amount(l) else 0
  }

  function PickedAmount(l: Line): int {
    if IsPick(l) then Amount(l) else 0
  }

  function Live(lines: seq<Line>): seq<Line> {
    Filter(lines, IsLive)
  }

  function PickAmount(id: Id): Line -> int {
    (l: Line) => if l.parent == Some(id) then Amount(l) else 0
  }

  /** One printed line: its own amount plus every pick's. */
  function Printed(live: seq<Line>, top: Line): InvoiceLine {
    var total := Amount(top) + SumBy(live, PickAmount(top.id));
    InvoiceLine(top.quantity, TruncDiv(total, top.quantity), total)
  }

  function PrintedLines(live: seq<Line>, tops: seq<Line>): seq<InvoiceLine> {
    if |tops| == 0 then [] else PrintedLines(live, tops[..|tops| - 1]) + [Printed(live, tops[|tops| - 1])]
  }

  function InvoiceLines(lines: seq<Line>): seq<InvoiceLine> {
    PrintedLines(Live(lines), Filter(Live(lines), IsTop))
  }

  function PrintedTotal(i: InvoiceLine): int {
    i.lineTotal
  }

  // ---- Unit price times quantity is the line total -----------------------------------------------

  function PerCombo(id: Id, combos: Qty): Line -> int {
    (l: Line) => if l.parent == Some(id) then (l.quantity / combos) * Unit(l) else 0
  }

  lemma {:induction false} PicksPerCombo(lines: seq<Line>, top: Line)
    requires forall l :: l in lines && l.parent == Some(top.id) ==> IsParentOf(top, l)
    ensures SumBy(lines, PickAmount(top.id)) == top.quantity * SumBy(lines, PerCombo(top.id, top.quantity))
  {
    if |lines| > 0 {
      var front, last := lines[..|lines| - 1], lines[|lines| - 1];
      assert last in lines;
      PicksPerCombo(front, top);
      var per := last.quantity / top.quantity;
      Reassociate(per, top.quantity, Unit(last));
      Distribute(top.quantity, SumBy(front, PerCombo(top.id, top.quantity)), PerCombo(top.id, top.quantity)(last));
    }
  }

  /** Every printed unit price times its quantity is the printed line total, with no remainder. */
  lemma {:induction false} PrintedExact(lines: seq<Line>, next: Id, top: Line)
    requires LinesOk(lines, next) && top in lines
    ensures Printed(Live(lines), top).unitPrice * top.quantity == Printed(Live(lines), top).lineTotal
  {
    var live := Live(lines);
    forall l | l in live && l.parent == Some(top.id)
      ensures IsParentOf(top, l)
    {
      FilterMember(lines, IsLive, l);
      assert InFamily(lines, l);
      var p :| p in lines && IsParentOf(p, l);
      SameId(lines, p, top);
    }
    PicksPerCombo(live, top);
    var per := Unit(top) + SumBy(live, PerCombo(top.id, top.quantity));
    Distribute(top.quantity, Unit(top), SumBy(live, PerCombo(top.id, top.quantity)));
    var total := Printed(live, top).lineTotal;
    assert total == top.quantity * per;
    SumByNonNegative(live, PickAmount(top.id));
    DivBounds(total, top.quantity);
    SameMultiple(top.quantity, total / top.quantity, per);
  }

  // ---- The printed totals add up to the subtotal -------------------------------------------------

  function PicksOf(picks: seq<Line>): Line -> int {
    (t: Line) => SumBy(picks, PickAmount(t.id))
  }

  function Adopts(c: Line): Line -> int {
    (t: Line) => if c.parent == Some(t.id) then Amount(c) else 0
  }

  /** Only one line of a list with distinct ids can be the parent of c. */
  lemma {:induction false} OneParent(tops: seq<Line>, c: Line, p: Line)
    requires Distinct(tops) && p in tops && c.parent == Some(p.id)
    ensures SumBy(tops, Adopts(c)) == Amount(c)
  {
    var front, last := tops[..|tops| - 1], tops[|tops| - 1];
    if last.id == p.id {
      forall t | t in front
        ensures Adopts(c)(t) == 0
      {
        var i :| 0 <= i < |front| && front[i] == t;
        assert tops[i] == t;
      }
      SumByEqual(front, Adopts(c), Nothing);
      ZeroSum(front);
    } else {
      assert p in front;
      OneParent(front, c, p);
    }
  }

  function Nothing(l: Line): int {
    0
  }

  lemma {:induction false} ZeroSum(s: seq<Line>)
    ensures SumBy(s, Nothing) == 0
  {
    if |s| > 0 {
      ZeroSum(s[..|s| - 1]);
    }
  }

  /** Summing the picks per combo or straight down the list is the same. */
  lemma {:induction false} PicksOnce(tops: seq<Line>, picks: seq<Line>)
    requires Distinct(tops)
    requires forall c :: c in picks && c.parent.Some? ==> exists p :: p in tops && c.parent == Some(p.id)
    ensures SumBy(tops, PicksOf(picks)) == SumBy(picks, PickedAmount)
  {
    if |picks| == 0 {
      SumByEqual(tops, PicksOf(picks), Nothing);
      ZeroSum(tops);
    } else {
      var front, c := picks[..|picks| - 1], picks[|picks| - 1];
      assert c in picks;
      PicksOnce(tops, front);
      SumByAdd(tops, PicksOf(front), Adopts(c), PicksOf(picks));
      if c.parent.Some? {
        var p :| p in tops && c.parent == Some(p.id);
        OneParent(tops, c, p);
      } else {
        SumByEqual(tops, Adopts(c), Nothing);
        ZeroSum(tops);
      }
    }
  }

  lemma {:induction false} PrintedSum(live: seq<Line>, tops: seq<Line>)
    ensures SumBy(PrintedLines(live, tops), PrintedTotal) == SumBy(tops, Amount) + SumBy(tops, PicksOf(live))
  {
    if |tops| > 0 {
      PrintedSum(live, tops[..|tops| - 1]);
      SumBySnoc(PrintedLines(live, tops[..|tops| - 1]), Printed(live, tops[|tops| - 1]), PrintedTotal);
    }
  }

  lemma {:induction false} PickHasPrintedCombo(lines: seq<Line>, next: Id, c: Line)
    requires LinesOk(lines, next) && c in Live(lines) && c.parent.Some?
    ensures exists p :: p in Filter(Live(lines), IsTop) && c.parent == Some(p.id)
  {
    FilterMember(lines, IsLive, c);
    assert InFamily(lines, c);
    var p :| p in lines && IsParentOf(p, c);
    assert InFamily(lines, p);
    FilterMember(lines, IsLive, p);
    FilterMember(Live(lines), IsTop, p);
  }

  /** The invoice's line totals add up to the order's subtotal. */
  lemma {:induction false} InvoiceSumsToSubtotal(lines: seq<Line>, next: Id)
    requires LinesOk(lines, next)
    ensures SumBy(InvoiceLines(lines), PrintedTotal) == Subtotal(lines)
  {
    var live := Live(lines);
    var tops := Filter(live, IsTop);
    FilterDistinct(lines, IsLive);
    FilterDistinct(live, IsTop);
    forall c | c in live && c.parent.Some?
      ensures exists p :: p in tops && c.parent == Some(p.id)
    {
      PickHasPrintedCombo(lines, next, c);
    }
    PrintedSum(live, tops);
    PicksOnce(tops, live);
    SumByFilter(live, IsTop, Amount, TopAmount);
    SumByAdd(live, TopAmount, PickedAmount, Amount);
    LiveSubtotal(lines);
  }

  lemma {:induction false} LiveSubtotal(lines: seq<Line>)
    ensures SumBy(Live(lines), Amount) == Subtotal(lines)
  {
    SumByFilter(lines, IsLive, Amount, Billed);
  }
}
