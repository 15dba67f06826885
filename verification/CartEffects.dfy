/** What each cart request does, exactly when it is refused, and what every line costs in the menu's own rows. */
module CartEffects {
  import opened Prelude
  import opened Rounding
  import opened Combos
  import opened Cart
  import Orders
  import Pricing
  import Checkout

  // ---- Costs ---------------------------------------------------------------------------------------

  /** Modifiers cost the sum of their own menu prices. */
  lemma {:induction false} ModifiersCost(menu: Menu, ids: seq<Id>, m: Id)
    requires m in menu.modifiers
    ensures ModifiersTotal(menu, []) == 0
    ensures ModifiersTotal(menu, ids + [m]) == ModifiersTotal(menu, ids) + menu.modifiers[m]
  {
    SumBySnoc(ids, m, Priced(menu));
  }

  /** An item line costs its quantity times the guest-channel price at the outlet, or nothing without one, plus its modifiers. */
  lemma {:induction false} ItemLineCost(menu: Menu, l: CartLine)
    requires l.CartItem?
    ensures var row := Pricing.Resolve(menu.prices, l.item, l.variant, Pricing.Target(Pricing.Qr, Some(menu.outlet)), menu.asOf);
            Cost(menu)(l) == l.quantity * ((if row.Some? then row.value.price else 0) + ModifiersTotal(menu, l.modifiers))
  {
  }

  /** A combo without picks costs its menu price per combo. */
  lemma {:induction false} BareComboCost(menu: Menu, l: CartLine)
    requires l.CartCombo? && l.picks == [] && l.combo in menu.combos
    ensures Cost(menu)(l) == l.quantity * menu.combos[l.combo].price
  {
    assert Selections(l) == [];
  }

  /** Each pick of a combo adds, per unit, its option's extra charge and its own modifiers. */
  lemma {:induction false} PickAddsCost(menu: Menu, l: CartLine, l': CartLine, p: CartPick)
    requires l.CartCombo? && l'.CartCombo? && l' == CartCombo(l.id, l.guest, l.quantity, l.combo, l.picks + [p]) && p.option in menu.options
    ensures Cost(menu)(l') == Cost(menu)(l) + p.quantity * (menu.options[p.option].upcharge + ModifiersTotal(menu, p.modifiers))
  {
    assert p in l'.picks;
    var s := PerCombo(p, l.quantity);
    assert Selections(l') == Selections(l) + [s];
    SumBySnoc(Selections(l), s, PickCost(menu));
    PerUnit(l.quantity, UnitCost(menu, l), s.quantity, menu.options[p.option].upcharge + ModifiersTotal(menu, p.modifiers));
  }

  lemma {:induction false} PerUnit(q: int, unit: int, per: int, extra: int)
    ensures (unit + per * extra) * q == unit * q + (per * q) * extra
  {
    Distribute(q, unit, per * extra);
    assert q * (per * extra) == (per * q) * extra;
  }

  // ---- Modifier rules --------------------------------------------------------------------------------

  /** The chosen ones among some modifiers. */
  function Chosen(modifiers: seq<Id>, ids: seq<Id>): set<Id> {
    set m | m in modifiers && m in ids
  }

  /** Every chosen modifier belongs to one of the item's groups, and each group's choice is within its limits. */
  ghost predicate ModifiersFit(item: MenuItem, ids: seq<Id>) {
    && (forall m :: m in ids ==> exists g :: g in item.groups && m in g.modifiers)
    && (forall g :: g in item.groups ==> g.min <= |Chosen(g.modifiers, ids)| <= g.max)
  }

  lemma {:induction false} ChosenSnoc(front: seq<Id>, last: Id, ids: seq<Id>)
    requires last !in front
    ensures |Chosen(front + [last], ids)| == |Chosen(front, ids)| + if last in ids then 1 else 0
  {
    assert Chosen(front + [last], ids) == if last in ids then Chosen(front, ids) + {last} else Chosen(front, ids);
  }

  lemma {:induction false} FilterCounts(s: seq<Id>, ids: seq<Id>)
    requires forall i, j :: 0 <= i < j < |s| ==> s[i] != s[j]
    ensures |Filter(s, Among(ids))| == |Chosen(s, ids)|
  {
    if |s| == 0 {
      assert Chosen(s, ids) == {};
    } else {
      var front, last := s[..|s| - 1], s[|s| - 1];
      assert s == front + [last];
      FilterCounts(front, ids);
      ChosenSnoc(front, last, ids);
    }
  }

  lemma {:induction false} CheckModifiersIff(item: MenuItem, ids: seq<Id>)
    ensures CheckModifiers(item, ids).Ok? <==> ModifiersFit(item, ids)
  {
    forall g | g in item.groups
      ensures WithinLimits(g, ids) <==> g.min <= |Chosen(g.modifiers, ids)| <= g.max
    {
      FilterCounts(g.modifiers, ids);
    }
    forall m | m in ids
      ensures Belongs(item, m) <==> exists g :: g in item.groups && m in g.modifiers
    {
    }
  }

  // ---- Requests ----------------------------------------------------------------------------------------

  /** The item is on the menu and switched on for the tenant and, where the outlet decided, for the outlet. */
  ghost predicate OnSale(menu: Menu, id: Id, variant: Option<Id>) {
    && id in menu.items && !menu.items[id].archived
    && (variant.Some? ==> variant.value in menu.items[id].variants)
    && menu.items[id].available && menu.items[id].atOutlet != Some(false)
  }

  /** An item is added exactly when it is on sale with fitting modifiers; the guest gets exactly the line asked for, at its cost. */
  lemma {:induction false} AddLineExact(menu: Menu, rows: Rows, guest: Id, item: Id, variant: Option<Id>, quantity: Qty, modifiers: Ids)
    ensures var r := Change(menu, rows, guest, true, AddLine(item, variant, quantity, modifiers));
            && (r.Ok? <==> OnSale(menu, item, variant) && ModifiersFit(menu.items[item], modifiers))
            && (r.Ok? ==>
                  var l := CartItem(rows.next, guest, quantity, item, variant, modifiers);
                  && r.value.lines == rows.lines + [l]
                  && CartTotal(menu, r.value.lines) == CartTotal(menu, rows.lines) + Cost(menu)(l))
  {
    if item in menu.items {
      CheckModifiersIff(menu.items[item], modifiers);
    }
    var l: CartLine := CartItem(rows.next, guest, quantity, item, variant, modifiers);
    SumBySnoc(rows.lines, l, Cost(menu));
  }

  /** A combo is added exactly when its selection resolves; the guest's line holds the picks asked for and the fixed parts left out. */
  lemma {:induction false} AddComboExact(menu: Menu, rows: Rows, guest: Id, combo: Id, quantity: Qty, selections: seq<Selection>)
    ensures var r := Change(menu, rows, guest, true, AddCombo(combo, quantity, selections));
            && (r.Ok? <==> Resolve(menu, combo, selections).Ok?)
            && (r.Ok? ==>
                  && combo in menu.combos
                  && |r.value.lines| == |rows.lines| + 1 && r.value.lines[..|rows.lines|] == rows.lines
                  && var l := r.value.lines[|rows.lines|];
                  && l.CartCombo? && l.combo == combo && l.quantity == quantity && l.guest == guest
                  && Selections(l) == Full(menu.combos[combo], selections))
  {
    if Resolve(menu, combo, selections).Ok? {
      ResolveAcceptsIff(menu, combo, selections);
    }
  }

  ghost predicate DistinctLines(lines: seq<CartLine>) {
    forall i, j :: 0 <= i < j < |lines| ==> lines[i].id != lines[j].id
  }

  /** The guest's own line is at position i. */
  ghost predicate IsOwn(lines: seq<CartLine>, guest: Id, id: Id, i: int) {
    0 <= i < |lines| && lines[i].id == id && lines[i].guest == guest
  }

  ghost predicate Owns(lines: seq<CartLine>, guest: Id, id: Id) {
    exists i :: IsOwn(lines, guest, id, i)
  }

  lemma {:induction false} LoadOwnIff(lines: seq<CartLine>, guest: Id, id: Id)
    requires DistinctLines(lines)
    ensures LoadOwn(lines, guest, id).Ok? <==> Owns(lines, guest, id)
    ensures LoadOwn(lines, guest, id).Ok? ==> IsOwn(lines, guest, id, LoadOwn(lines, guest, id).value)
    ensures forall i :: IsOwn(lines, guest, id, i) ==> LoadOwn(lines, guest, id) == Ok(i)
  {
    var at := LineAt(lines, id);
    if LoadOwn(lines, guest, id).Ok? {
      assert IsOwn(lines, guest, id, at.value);
    }
  }

  /** A combo only takes a new quantity; an item's new modifiers must fit, and its item must still be on the menu. */
  ghost predicate Changeable(menu: Menu, l: CartLine, modifiers: Option<Ids>) {
    modifiers.Some? ==> l.CartItem? && l.item in menu.items && !menu.items[l.item].archived && ModifiersFit(menu.items[l.item], modifiers.value)
  }

  /** The line with the quantity and modifiers asked for; per combo a combo's picks stay what they were. */
  ghost predicate Changed(l: CartLine, l': CartLine, quantity: Option<Qty>, modifiers: Option<Ids>) {
    && l'.id == l.id && l'.guest == l.guest
    && l'.quantity == (if quantity.Some? then quantity.value else l.quantity)
    && (l.CartItem? ==> l'.CartItem? && l'.item == l.item && l'.variant == l.variant && l'.modifiers == (if modifiers.Some? then modifiers.value else l.modifiers))
    && (l.CartCombo? ==> l'.CartCombo? && l'.combo == l.combo && Selections(l') == Selections(l))
  }

  lemma {:induction false} ScaledChanges(l: CartLine, quantity: Qty)
    ensures Changed(l, Scaled(l, quantity), Some(quantity), None)
  {
  }

  /** A change is accepted exactly on the guest's own line, within those rules; that line changes as asked and no other does. */
  lemma {:induction false} UpdateLineExact(menu: Menu, rows: Rows, guest: Id, id: Id, quantity: Option<Qty>, modifiers: Option<Ids>, i: int)
    requires DistinctLines(rows.lines) && IsOwn(rows.lines, guest, id, i)
    ensures var r := Change(menu, rows, guest, true, UpdateLine(id, quantity, modifiers));
            && (r.Ok? <==> Changeable(menu, rows.lines[i], modifiers))
            && (r.Ok? ==>
                  && |r.value.lines| == |rows.lines| && r.value.next == rows.next
                  && r.value.lines == rows.lines[i := r.value.lines[i]]
                  && Changed(rows.lines[i], r.value.lines[i], quantity, modifiers))
  {
    LoadOwnIff(rows.lines, guest, id);
    var l := rows.lines[i];
    if quantity.Some? {
      ScaledChanges(l, quantity.value);
    }
    if l.CartItem? && l.item in menu.items && modifiers.Some? {
      CheckModifiersIff(menu.items[l.item], modifiers.value);
    }
  }

  /** A removal is accepted exactly on the guest's own line; it takes that line, with its picks, and its cost off. */
  lemma {:induction false} RemoveLineExact(menu: Menu, rows: Rows, guest: Id, id: Id, i: int)
    requires DistinctLines(rows.lines) && IsOwn(rows.lines, guest, id, i)
    ensures var r := Change(menu, rows, guest, true, RemoveLine(id));
            && r.Ok? && r.value == rows.(lines := rows.lines[..i] + rows.lines[i + 1..])
            && CartTotal(menu, r.value.lines) == CartTotal(menu, rows.lines) - Cost(menu)(rows.lines[i])
  {
    LoadOwnIff(rows.lines, guest, id);
    var a, l, b := rows.lines[..i], rows.lines[i], rows.lines[i + 1..];
    assert rows.lines == (a + [l]) + b;
    SumByConcat(a, b, Cost(menu));
    SumByConcat(a + [l], b, Cost(menu));
    SumBySnoc(a, l, Cost(menu));
  }

  /** Nobody else's line, no pick and no missing line can be changed or removed, and an ended session changes nothing. */
  lemma {:induction false} OthersRefused(menu: Menu, rows: Rows, guest: Id, sessionActive: bool, id: Id, quantity: Option<Qty>, modifiers: Option<Ids>)
    requires DistinctLines(rows.lines) && (!Owns(rows.lines, guest, id) || !sessionActive)
    ensures Change(menu, rows, guest, sessionActive, UpdateLine(id, quantity, modifiers)).Err?
    ensures Change(menu, rows, guest, sessionActive, RemoveLine(id)).Err?
  {
    LoadOwnIff(rows.lines, guest, id);
  }

  // ---- What is placed --------------------------------------------------------------------------------------

  /** A pick is ordered from its option's item: that item's station, the picks per combo, the option's extra charge. */
  ghost predicate OrderedAs(menu: Menu, s: Selection, pick: Orders.Pick) {
    && s.option in menu.options
    && pick.station == menu.items[menu.options[s.option].item].station
    && pick.quantity == s.quantity && pick.upcharge == menu.options[s.option].upcharge
    && pick.modifiers == Checkout.PricesOf(menu, s.modifiers)
  }

  lemma {:induction false} PicksFromAt(menu: Menu, children: seq<Child>, k: nat)
    requires k < |children|
    ensures |Checkout.PicksFrom(menu, children)| == |children| && Checkout.PicksFrom(menu, children)[k] == Checkout.PickFrom(menu, children[k])
  {
    var front := children[..|children| - 1];
    if |front| > 0 {
      PicksFromAt(menu, front, if k < |front| then k else 0);
    }
  }

  lemma {:induction false} ChildOrdered(menu: Menu, s: Selection, c: Child)
    requires s.option in menu.options && ChildOf(menu, s) == Ok(c)
    ensures OrderedAs(menu, s, Checkout.PickFrom(menu, c))
  {
  }

  /** A combo line is placed as its combo at the menu's price with exactly its picks and the fixed parts, each for its own station. */
  lemma {:induction false} ComboPlacedAs(menu: Menu, l: CartLine, k: nat)
    requires l.CartCombo? && Checkout.Placed(menu, l).Ok?
    requires l.combo in menu.combos && k < |Full(menu.combos[l.combo], Selections(l))|
    ensures var item := Checkout.Placed(menu, l).value;
            var full := Full(menu.combos[l.combo], Selections(l));
            && item.NewCombo? && item.quantity == l.quantity && item.price == menu.combos[l.combo].price
            && |item.picks| == |full| && OrderedAs(menu, full[k], item.picks[k])
  {
    var selections, deal := Selections(l), menu.combos[l.combo];
    var children := Resolve(menu, l.combo, selections).value;
    ResolvedAt(menu, l.combo, selections, children, k);
    PicksFromAt(menu, children, k);
    ChildOrdered(menu, Full(deal, selections)[k], children[k]);
  }

  lemma {:induction false} ResolvedAt(menu: Menu, combo: Id, selections: seq<Selection>, children: seq<Child>, k: nat)
    requires Resolve(menu, combo, selections) == Ok(children) && k < |Full(menu.combos[combo], selections)|
    ensures var full := Full(menu.combos[combo], selections);
            |children| == |full| && full[k].option in menu.options && ChildOf(menu, full[k]) == Ok(children[k])
  {
    var deal := menu.combos[combo];
    assert SlotsApart(deal.slots);
    FillSlotsIs(selections, deal.slots);
    FilledOffered(deal, selections);
    ChildrenAre(menu, Full(deal, selections));
    assert Full(deal, selections)[k] in Full(deal, selections);
  }

  // ---- When a combo selection is accepted ----------------------------------------------------------------------

  /** The outlet's own switch decides about the option's item, and the tenant's where the outlet has none. */
  ghost predicate ItemServed(menu: Menu, option: Id) {
    option in menu.options &&
      var item := menu.items[menu.options[option].item];
      item.atOutlet == Some(true) || (item.atOutlet == None && item.available)
  }

  function FromSlot(slot: Slot): Selection -> bool {
    (s: Selection) => s.option in slot.options
  }

  function Units(s: Selection): int {
    s.quantity
  }

  /** How many units are picked from a slot. */
  function UnitsFrom(selections: seq<Selection>, slot: Slot): int {
    SumBy(Filter(selections, FromSlot(slot)), Units)
  }

  ghost predicate SlotFilled(selections: seq<Selection>, slot: Slot) {
    UnitsFrom(selections, slot) == slot.pickCount || (|slot.options| == 1 && UnitsFrom(selections, slot) == 0)
  }

  ghost predicate SlotOpen(menu: Menu, slot: Slot) {
    exists o :: o in slot.options && ItemServed(menu, o)
  }

  ghost predicate OnMenu(menu: Menu, id: Id) {
    && id in menu.combos && !menu.combos[id].archived && menu.combos[id].available && menu.combos[id].slots != []
    && forall k :: 0 <= k < |menu.combos[id].slots| ==> SlotOpen(menu, menu.combos[id].slots[k])
  }

  ghost predicate PickServed(menu: Menu, s: Selection) {
    ItemServed(menu, s.option) && ModifiersFit(menu.items[menu.options[s.option].item], s.modifiers)
  }

  /** Known picks only, every slot filled or a left-out fixed part, and everything on the plate served as asked. */
  ghost predicate FitsCombo(menu: Menu, combo: ComboDeal, selections: seq<Selection>) {
    && (forall s :: s in selections ==> Offers(combo, s.option))
    && (forall k :: 0 <= k < |combo.slots| ==> SlotFilled(selections, combo.slots[k]))
    && (forall i :: 0 <= i < |Full(combo, selections)| ==> PickServed(menu, Full(combo, selections)[i]))
  }

  lemma {:induction false} ServedIff(menu: Menu, option: Id)
    ensures CanServe(menu, option) <==> ItemServed(menu, option)
  {
  }

  lemma {:induction false} SlotFilledIff(selections: seq<Selection>, slot: Slot)
    ensures Satisfied(selections, slot) <==> SlotFilled(selections, slot)
  {
    SumByFilter(selections, FromSlot(slot), Units, In(slot));
  }

  lemma {:induction false} ComboAvailableIff(menu: Menu, combo: ComboDeal)
    ensures ComboAvailable(menu, combo) <==> combo.available && combo.slots != [] && forall k :: 0 <= k < |combo.slots| ==> SlotOpen(menu, combo.slots[k])
  {
    forall slot | slot in combo.slots
      ensures (exists o :: o in slot.options && CanServe(menu, o)) <==> SlotOpen(menu, slot)
    {
      if o :| o in slot.options && CanServe(menu, o) {
        ServedIff(menu, o);
      }
      if o :| o in slot.options && ItemServed(menu, o) {
        ServedIff(menu, o);
      }
    }
    assert forall k :: 0 <= k < |combo.slots| ==> combo.slots[k] in combo.slots;
  }

  lemma {:induction false} PickServedIff(menu: Menu, s: Selection)
    ensures Servable(menu, s) <==> PickServed(menu, s)
  {
    if s.option in menu.options {
      ServedIff(menu, s.option);
      CheckModifiersIff(menu.items[menu.options[s.option].item], s.modifiers);
    }
  }

  /** A combo selection is accepted exactly when the combo is on sale and the selection fits it. */
  lemma {:induction false} SelectionAcceptedIff(menu: Menu, id: Id, selections: seq<Selection>)
    ensures Resolve(menu, id, selections).Ok? <==> OnMenu(menu, id) && FitsCombo(menu, menu.combos[id], selections)
  {
    if id in menu.combos && !menu.combos[id].archived {
      var combo := menu.combos[id];
      ComboAvailableIff(menu, combo);
      if ComboAvailable(menu, combo) {
        ResolveAcceptsIff(menu, id, selections);
        forall k | 0 <= k < |combo.slots|
          ensures Satisfied(selections, combo.slots[k]) <==> SlotFilled(selections, combo.slots[k])
        {
          SlotFilledIff(selections, combo.slots[k]);
        }
        forall i | 0 <= i < |Full(combo, selections)|
          ensures Servable(menu, Full(combo, selections)[i]) <==> PickServed(menu, Full(combo, selections)[i])
        {
          PickServedIff(menu, Full(combo, selections)[i]);
        }
      }
    }
  }
}
