/** Order lines: plain items, combos with their picks, and what they cost. */
module Orders {
  import opened Prelude
  import opened Rounding

  /** A combo line is only billed; what the kitchen makes are its picks, each an item line. */
  datatype Kind = Item(station: Option<Id>) | Combo

  datatype Line = Line(
    id: Id,
    kind: Kind,
    parent: Option<Id>,
    quantity: Qty,
    unitPrice: nat,
    modifiers: seq<nat>,
    guest: Option<Id>,
    voided: bool)

  function Price(p: nat): int {
    p
  }

  function Unit(l: Line): nat {
    SumByNonNegative(l.modifiers, Price);
    l.unitPrice + SumBy(l.modifiers, Price)
  }

  function LineTotal(l: Line): nat {
    l.quantity * Unit(l)
  }

  /** A voided line is no longer billed. */
  function Billed(l: Line): int {
    if l.voided then 0 else LineTotal(l)
  }

  function Subtotal(lines: seq<Line>): nat {
    SumByNonNegative(lines, Billed);
    SumBy(lines, Billed)
  }

  // ---- Well-formed line lists ------------------------------------------------------------------

  ghost predicate Distinct(lines: seq<Line>) {
    forall i, j :: 0 <= i < j < |lines| ==> lines[i].id != lines[j].id
  }

  /** p is the combo line that c is a pick of; a pick's quantity is a whole number per combo. */
  ghost predicate IsParentOf(p: Line, c: Line) {
    && c.parent == Some(p.id)
    && p.kind.Combo?
    && c.kind.Item?
    && p.voided == c.voided
    && c.quantity == (c.quantity / p.quantity) * p.quantity
  }

  /** A line is a plain item, a combo, or a pick with its combo on the same order. */
  ghost predicate InFamily(lines: seq<Line>, l: Line) {
    && (l.kind.Combo? ==> l.parent.None?)
    && (l.parent.Some? ==> exists p :: p in lines && IsParentOf(p, l))
  }

  ghost predicate LinesOk(lines: seq<Line>, next: Id) {
    && Distinct(lines)
    && (forall l :: l in lines ==> l.id < next)
    && (forall l :: l in lines ==> InFamily(lines, l))
  }

  lemma {:induction false} SameId(lines: seq<Line>, a: Line, b: Line)
    requires Distinct(lines) && a in lines && b in lines && a.id == b.id
    ensures a == b
  {
    var i :| 0 <= i < |lines| && lines[i] == a;
    var j :| 0 <= j < |lines| && lines[j] == b;
  }

  function Find(lines: seq<Line>, id: Id): (r: Option<Line>)
    ensures r.Some? ==> r.value in lines && r.value.id == id
    ensures r.None? ==> forall l :: l in lines ==> l.id != id
  {
    if |lines| == 0 then None
    else if lines[|lines| - 1].id == id then Some(lines[|lines| - 1])
    else
      assert lines == lines[..|lines| - 1] + [lines[|lines| - 1]];
      Find(lines[..|lines| - 1], id)
  }

  function IndexOf(lines: seq<Line>, id: Id): (r: Option<nat>)
    ensures r.Some? ==> r.value < |lines| && lines[r.value].id == id
    ensures r.None? ==> forall l :: l in lines ==> l.id != id
  {
    if |lines| == 0 then None
    else if lines[|lines| - 1].id == id then Some(|lines| - 1)
    else
      assert lines == lines[..|lines| - 1] + [lines[|lines| - 1]];
      IndexOf(lines[..|lines| - 1], id)
  }

  // ---- Adding ----------------------------------------------------------------------------------

  /** One chosen item of a combo: how many per combo and its extra charge. */
  datatype Pick = Pick(station: Option<Id>, quantity: Qty, upcharge: nat, modifiers: seq<nat>)

  datatype NewItem =
    | NewLine(station: Option<Id>, quantity: Qty, price: nat, modifiers: seq<nat>)
    | NewCombo(quantity: Qty, price: nat, picks: seq<Pick>)

  function PickLine(pick: Pick, combos: Qty, id: Id, parent: Id, guest: Option<Id>): Line {
    Line(id, Item(pick.station), Some(parent), PickQuantity(pick, combos), pick.upcharge, pick.modifiers, guest, false)
  }

  function PickQuantity(pick: Pick, combos: Qty): Qty {
    MultipleGap(pick.quantity, combos, 1, 0);
    pick.quantity * combos
  }

  function PickLines(picks: seq<Pick>, combos: Qty, parent: Id, guest: Option<Id>): seq<Line> {
    if |picks| == 0 then [] else
      PickLines(picks[..|picks| - 1], combos, parent, guest) +
      [PickLine(picks[|picks| - 1], combos, parent + |picks|, parent, guest)]
  }

  /** The order's lines and next free id after one item or combo is added. */
  function AddItem(lines: seq<Line>, next: Id, item: NewItem, guest: Option<Id>): (seq<Line>, Id) {
    match item
    case NewLine(station, quantity, price, modifiers) =>
      (lines + [Line(next, Item(station), None, quantity, price, modifiers, guest, false)], next + 1)
    case NewCombo(quantity, price, picks) =>
      (lines + [Line(next, Combo, None, quantity, price, [], guest, false)] + PickLines(picks, quantity, next, guest),
       next + 1 + |picks|)
  }

  function PickPrice(p: Pick): (r: int)
    ensures 0 <= r
  {
    SumByNonNegative(p.modifiers, Price);
    p.quantity * (p.upcharge + SumBy(p.modifiers, Price))
  }

  /** What an item adds to the bill: a combo costs its price plus every pick's extra charge, per combo. */
  function ItemTotal(item: NewItem): int {
    match item
    case NewLine(_, quantity, price, modifiers) => quantity * (price + SumBy(modifiers, Price))
    case NewCombo(quantity, price, picks) => quantity * (price + SumBy(picks, PickPrice))
  }

  lemma {:induction false} PickLinesAt(picks: seq<Pick>, combos: Qty, parent: Id, guest: Option<Id>, i: nat)
    requires i < |picks|
    ensures |PickLines(picks, combos, parent, guest)| == |picks|
    ensures PickLines(picks, combos, parent, guest)[i] == PickLine(picks[i], combos, parent + 1 + i, parent, guest)
  {
    if |picks| == 1 {
      assert PickLines(picks[..0], combos, parent, guest) == [];
    } else {
      PickLinesAt(picks[..|picks| - 1], combos, parent, guest, if i < |picks| - 1 then i else 0);
    }
  }

  lemma {:induction false} PickLinesTotal(picks: seq<Pick>, combos: Qty, parent: Id, guest: Option<Id>)
    ensures SumBy(PickLines(picks, combos, parent, guest), Billed) == combos * SumBy(picks, PickPrice)
  {
    if |picks| > 0 {
      var front, last := picks[..|picks| - 1], picks[|picks| - 1];
      PickLinesTotal(front, combos, parent, guest);
      var line := PickLine(last, combos, parent + |picks|, parent, guest);
      SumBySnoc(PickLines(front, combos, parent, guest), line, Billed);
      Reassociate(last.quantity, combos, Unit(line));
      Distribute(combos, SumBy(front, PickPrice), PickPrice(last));
    }
  }

  lemma {:induction false} Reassociate(a: int, b: int, c: int)
    ensures (a * b) * c == b * (a * c)
  {
  }

  lemma {:induction false} ItemTotalNonNegative(item: NewItem)
    ensures ItemTotal(item) >= 0
  {
    match item
    case NewLine(_, _, _, modifiers) => SumByNonNegative(modifiers, Price);
    case NewCombo(_, _, picks) => SumByNonNegative(picks, PickPrice);
  }

  lemma {:induction false} AddComboTotal(lines: seq<Line>, parent: Line, picks: seq<Pick>)
    requires !parent.voided && parent.modifiers == []
    ensures Subtotal(lines + [parent] + PickLines(picks, parent.quantity, parent.id, parent.guest)) ==
      Subtotal(lines) + parent.quantity * (parent.unitPrice + SumBy(picks, PickPrice))
  {
    SumBySnoc(lines, parent, Billed);
    SumByConcat(lines + [parent], PickLines(picks, parent.quantity, parent.id, parent.guest), Billed);
    PickLinesTotal(picks, parent.quantity, parent.id, parent.guest);
    Distribute(parent.quantity, parent.unitPrice, SumBy(picks, PickPrice));
  }

  /** Adding an item raises the subtotal by exactly its price. */
  lemma {:induction false} AddItemTotal(lines: seq<Line>, next: Id, item: NewItem, guest: Option<Id>)
    ensures Subtotal(AddItem(lines, next, item, guest).0) == Subtotal(lines) + ItemTotal(item)
    ensures ItemTotal(item) >= 0
  {
    ItemTotalNonNegative(item);
    match item
    case NewLine(station, quantity, price, modifiers) =>
      SumBySnoc(lines, Line(next, Item(station), None, quantity, price, modifiers, guest, false), Billed);
    case NewCombo(quantity, price, picks) =>
      AddComboTotal(lines, Line(next, Combo, None, quantity, price, [], guest, false), picks);
  }

  lemma {:induction false} MultipleExact(q: Qty, k: Qty)
    ensures (q * k) / k == q
  {
    DivBounds(q * k, k);
    SameMultiple(k, (q * k) / k, q);
  }

  lemma {:induction false} AddItemMember(lines: seq<Line>, next: Id, item: NewItem, guest: Option<Id>, l: Line)
    requires l in AddItem(lines, next, item, guest).0 && l !in lines
    ensures next <= l.id < AddItem(lines, next, item, guest).1
    ensures !l.voided && l.guest == guest
    ensures l.parent.Some? ==> item.NewCombo? && IsParentOf(Line(next, Combo, None, item.quantity, item.price, [], guest, false), l)
    ensures l.kind.Combo? ==> l.parent.None?
  {
    match item
    case NewLine(_, _, _, _) =>
    case NewCombo(quantity, price, picks) =>
      var children := PickLines(picks, quantity, next, guest);
      if l in children {
        var i :| 0 <= i < |children| && children[i] == l;
        if |picks| > 0 {
          PickLinesAt(picks, quantity, next, guest, 0);
          PickLinesAt(picks, quantity, next, guest, i);
          MultipleExact(picks[i].quantity, quantity);
        }
      }
  }

  lemma {:induction false} AddItemOk(lines: seq<Line>, next: Id, item: NewItem, guest: Option<Id>)
    requires LinesOk(lines, next)
    ensures LinesOk(AddItem(lines, next, item, guest).0, AddItem(lines, next, item, guest).1)
    ensures forall l :: l in lines ==> l in AddItem(lines, next, item, guest).0
  {
    var (lines', next') := AddItem(lines, next, item, guest);
    forall l | l in lines'
      ensures l.id < next' && InFamily(lines', l)
    {
      if l !in lines {
        AddItemMember(lines, next, item, guest, l);
        if l.parent.Some? {
          assert Line(next, Combo, None, item.quantity, item.price, [], guest, false) == lines'[|lines|];
        }
      }
    }
    AddItemIds(lines, next, item, guest);
  }

  lemma {:induction false} AddItemIds(lines: seq<Line>, next: Id, item: NewItem, guest: Option<Id>)
    requires LinesOk(lines, next)
    ensures Distinct(AddItem(lines, next, item, guest).0)
  {
    var (lines', next') := AddItem(lines, next, item, guest);
    if item.NewCombo? && |item.picks| > 0 {
      PickLinesAt(item.picks, item.quantity, next, guest, 0);
    }
    forall k | |lines| <= k < |lines'|
      ensures lines'[k].id == next + (k - |lines|)
    {
      if item.NewCombo? && k > |lines| {
        PickLinesAt(item.picks, item.quantity, next, guest, k - |lines| - 1);
      }
    }
    assert forall k :: 0 <= k < |lines| ==> lines'[k] == lines[k] && lines[k] in lines;
  }

  // ---- Changing, removing, voiding ---------------------------------------------------------------

  /** The new version of a line: only the quantity and the modifiers can change. */
  function Edited(l: Line, quantity: Option<Qty>, modifiers: Option<seq<nat>>): Line {
    var l1 := if quantity.Some? then l.(quantity := quantity.value) else l;
    if modifiers.Some? then l1.(modifiers := modifiers.value) else l1
  }

  lemma {:induction false} EditOk(lines: seq<Line>, next: Id, i: nat, quantity: Option<Qty>, modifiers: Option<seq<nat>>)
    requires LinesOk(lines, next) && i < |lines|
    requires lines[i].kind.Item? && lines[i].parent.None?
    ensures LinesOk(lines[i := Edited(lines[i], quantity, modifiers)], next)
  {
    var lines' := lines[i := Edited(lines[i], quantity, modifiers)];
    forall l | l in lines'
      ensures l.id < next && InFamily(lines', l)
    {
      var k :| 0 <= k < |lines'| && lines'[k] == l;
      assert lines[k] in lines;
      if l.parent.Some? {
        var p :| p in lines && IsParentOf(p, lines[k]);
        var j :| 0 <= j < |lines| && lines[j] == p;
        assert lines'[j] == p;
      }
    }
  }

  /** The line and, for a combo, its picks. */
  function FamilyIds(lines: seq<Line>, id: Id): set<Id> {
    set l | l in lines && (l.id == id || l.parent == Some(id)) :: l.id
  }

  /** Deleting a line cascades to its picks. */
  function Outside(id: Id): Line -> bool {
    (l: Line) => l.id != id && l.parent != Some(id)
  }

  function Remove(lines: seq<Line>, id: Id): seq<Line> {
    Filter(lines, Outside(id))
  }

  lemma {:induction false} FilterDistinct(lines: seq<Line>, p: Line -> bool)
    requires Distinct(lines)
    ensures Distinct(Filter(lines, p))
  {
    if |lines| > 0 {
      var front, last := lines[..|lines| - 1], lines[|lines| - 1];
      FilterDistinct(front, p);
      forall l | l in Filter(front, p)
        ensures l.id != last.id
      {
        FilterMember(front, p, l);
      }
      assert forall k :: 0 <= k < |Filter(front, p)| ==> Filter(front, p)[k] in Filter(front, p);
    }
  }

  lemma {:induction false} RemoveOk(lines: seq<Line>, next: Id, id: Id)
    requires LinesOk(lines, next)
    ensures LinesOk(Remove(lines, id), next)
    ensures forall l :: l in Remove(lines, id) <==> l in lines && l.id !in FamilyIds(lines, id)
  {
    var lines' := Remove(lines, id);
    forall l
      ensures l in lines' <==> l in lines && Outside(id)(l)
    {
      FilterMember(lines, Outside(id), l);
    }
    forall l | l in lines
      ensures Outside(id)(l) <==> l.id !in FamilyIds(lines, id)
    {
      if l.id in FamilyIds(lines, id) {
        var m :| m in lines && (m.id == id || m.parent == Some(id)) && m.id == l.id;
        SameId(lines, l, m);
      }
    }
    FilterDistinct(lines, Outside(id));
    forall l | l in lines'
      ensures InFamily(lines', l)
    {
      if l.parent.Some? {
        var p :| p in lines && IsParentOf(p, l);
        assert InFamily(lines, p);
        assert Outside(id)(p);
      }
    }
  }

  function VoidedIf(l: Line, ids: set<Id>): Line {
    if l.id in ids then l.(voided := true) else l
  }

  function Void(lines: seq<Line>, ids: set<Id>): seq<Line> {
    seq(|lines|, i requires 0 <= i < |lines| => VoidedIf(lines[i], ids))
  }

  lemma {:induction false} VoidOk(lines: seq<Line>, next: Id, id: Id, top: Line)
    requires LinesOk(lines, next)
    requires top in lines && top.id == id && top.parent.None?
    ensures LinesOk(Void(lines, FamilyIds(lines, id)), next)
  {
    var ids := FamilyIds(lines, id);
    var lines' := Void(lines, ids);
    forall l | l in lines'
      ensures l.id < next && InFamily(lines', l)
    {
      var k :| 0 <= k < |lines'| && lines'[k] == l;
      var was := lines[k];
      assert was in lines;
      if was.parent.Some? {
        var p :| p in lines && IsParentOf(p, was);
        assert p.id in ids <==> was.id in ids by {
          FamilyTogether(lines, id, top, p, was);
        }
        var j :| 0 <= j < |lines| && lines[j] == p;
        assert lines'[j] == VoidedIf(p, ids);
        assert IsParentOf(lines'[j], l);
      }
    }
  }

  /** A pick is in the family of a top line exactly when its combo is. */
  lemma {:induction false} FamilyTogether(lines: seq<Line>, id: Id, top: Line, p: Line, c: Line)
    requires Distinct(lines) && top in lines && p in lines && c in lines
    requires top.id == id && top.parent.None? && IsParentOf(p, c) && InFamily(lines, p)
    ensures p.id in FamilyIds(lines, id) <==> c.id in FamilyIds(lines, id)
  {
    if p.id in FamilyIds(lines, id) {
      var m :| m in lines && (m.id == id || m.parent == Some(id)) && m.id == p.id;
      SameId(lines, m, p);
      assert c.parent == Some(id);
    }
    if c.id in FamilyIds(lines, id) {
      var m :| m in lines && (m.id == id || m.parent == Some(id)) && m.id == c.id;
      SameId(lines, m, c);
      if c.id == id {
        SameId(lines, c, top);
      }
    }
  }
}
