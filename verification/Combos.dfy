/** The menu rows that selling reads, and the one check of a combo's picks against its slots. */
module Combos {
  import opened Prelude
  import Pricing

  /** Row ids without repeats, as the request validators demand of modifier selections. */
  type Ids = s: seq<Id> | forall i, j :: 0 <= i < j < |s| ==> s[i] != s[j]

  datatype Group = Group(min: nat, max: nat, modifiers: Ids)

  datatype MenuItem = MenuItem(
    available: bool,
    atOutlet: Option<bool>,
    archived: bool,
    variants: set<Id>,
    station: Option<Id>,
    groups: seq<Group>)

  datatype Choice = Choice(item: Id, variant: Option<Id>, upcharge: nat)

  /** One step of a combo: pickCount items out of its options. */
  datatype Slot = Slot(pickCount: Qty, options: Ids)

  datatype ComboDeal = ComboDeal(price: nat, available: bool, archived: bool, slots: seq<Slot>)

  /** The tables as one outlet sees them at one moment. */
  datatype MenuRows = MenuRows(
    items: map<Id, MenuItem>,
    modifiers: map<Id, nat>,
    options: map<Id, Choice>,
    combos: map<Id, ComboDeal>,
    prices: seq<Pricing.PriceRow>,
    outlet: Id,
    asOf: int)

  /** An option row belongs to one slot. */
  ghost predicate Disjoint(a: Slot, b: Slot) {
    forall o :: o in a.options ==> o !in b.options
  }

  ghost predicate SlotsApart(slots: seq<Slot>) {
    forall j, k :: 0 <= j < k < |slots| ==> Disjoint(slots[j], slots[k])
  }

  predicate Offers(combo: ComboDeal, option: Id) {
    exists k :: 0 <= k < |combo.slots| && option in combo.slots[k].options
  }

  /** The foreign keys hold. */
  ghost predicate Linked(m: MenuRows) {
    && (forall o :: o in m.options ==> m.options[o].item in m.items)
    && (forall c, o :: c in m.combos && Offers(m.combos[c], o) ==> o in m.options)
    && (forall c :: c in m.combos ==> SlotsApart(m.combos[c].slots))
  }

  type Menu = m: MenuRows | Linked(m) witness MenuRows(map[], map[], map[], map[], [], 0, 0)

  // ---- Modifiers ---------------------------------------------------------------------------------

  function Among(ids: seq<Id>): Id -> bool {
    (m: Id) => m in ids
  }

  predicate Belongs(item: MenuItem, modifier: Id) {
    exists g :: g in item.groups && modifier in g.modifiers
  }

  predicate WithinLimits(g: Group, ids: seq<Id>) {
    g.min <= |Filter(g.modifiers, Among(ids))| <= g.max
  }

  /** The rule every line is held to: known modifiers only, and every group's minimum and maximum. */
  function CheckModifiers(item: MenuItem, ids: seq<Id>): Result<()> {
    if exists id :: id in ids && !Belongs(item, id) then Err(ValidationFailed)
    else if exists g :: g in item.groups && !WithinLimits(g, ids) then Err(ModifierSelectionInvalid)
    else Ok(())
  }

  // ---- Availability --------------------------------------------------------------------------------

  /** A combo's item: the outlet's override wins over the tenant-wide switch. */
  predicate IsAvailable(item: MenuItem) {
    if item.atOutlet.Some? then item.atOutlet.value else item.available
  }

  predicate CanServe(menu: Menu, option: Id) {
    option in menu.options && IsAvailable(menu.items[menu.options[option].item])
  }

  /** Switched on, and every slot has something left to pick. */
  predicate ComboAvailable(menu: Menu, combo: ComboDeal) {
    && combo.available
    && |combo.slots| > 0
    && forall slot :: slot in combo.slots ==> exists o :: o in slot.options && CanServe(menu, o)
  }

  // ---- Resolving a selection -----------------------------------------------------------------------

  /** One pick, per one combo. */
  datatype Selection = Selection(option: Id, quantity: Qty := 1, modifiers: Ids := [])

  /** A checked pick, ready to be written as a child line. */
  datatype Child = Child(option: Id, item: Id, variant: Option<Id>, station: Option<Id>, quantity: Qty, upcharge: nat, modifiers: Ids)

  function In(slot: Slot): Selection -> int {
    (s: Selection) => if s.option in slot.options then s.quantity else 0
  }

  function Picked(selections: seq<Selection>, slot: Slot): int {
    SumBy(selections, In(slot))
  }

  predicate Touches(selections: seq<Selection>, slot: Slot) {
    exists s :: s in selections && s.option in slot.options
  }

  /** A slot with a single option that was left out is filled in. */
  function WithFixed(picks: seq<Selection>, slot: Slot): seq<Selection> {
    if |slot.options| == 1 && !Touches(picks, slot) then picks + [Selection(slot.options[0], slot.pickCount, [])] else picks
  }

  /** Walks the slots in order, filling fixed ones and counting each. */
  function FillSlots(picks: seq<Selection>, slots: seq<Slot>): (r: Result<seq<Selection>>)
    ensures r.Ok? ==> forall s :: s in r.value ==> s in picks || exists k :: 0 <= k < |slots| && s.option in slots[k].options
  {
    if |slots| == 0 then Ok(picks) else
      var before :- FillSlots(picks, slots[..|slots| - 1]);
      var slot := slots[|slots| - 1];
      var filled := WithFixed(before, slot);
      if Picked(filled, slot) != slot.pickCount then Err(ComboSelectionInvalid) else Ok(filled)
  }

  function ChildOf(menu: Menu, s: Selection): Result<Child>
    requires s.option in menu.options
  {
    var choice := menu.options[s.option];
    var item := menu.items[choice.item];
    if !IsAvailable(item) then Err(ItemUnavailable) else
      var _ :- CheckModifiers(item, s.modifiers);
      Ok(Child(s.option, choice.item, choice.variant, item.station, s.quantity, choice.upcharge, s.modifiers))
  }

  function Children(menu: Menu, picks: seq<Selection>): Result<seq<Child>>
    requires forall s :: s in picks ==> s.option in menu.options
  {
    if |picks| == 0 then Ok([]) else
      var front :- Children(menu, picks[..|picks| - 1]);
      var last :- ChildOf(menu, picks[|picks| - 1]);
      Ok(front + [last])
  }

  function ResolveIn(menu: Menu, combo: ComboDeal, selections: seq<Selection>): Result<seq<Child>>
    requires forall o :: Offers(combo, o) ==> o in menu.options
  {
    if !ComboAvailable(menu, combo) then Err(ItemUnavailable)
    else if exists s :: s in selections && !Offers(combo, s.option) then Err(ValidationFailed)
    else
      var picks :- FillSlots(selections, combo.slots);
      assert forall s :: s in picks ==> Offers(combo, s.option);
      Children(menu, picks)
  }

  /** The child lines a selection stands for, or why it is refused. */
  function Resolve(menu: Menu, id: Id, selections: seq<Selection>): Result<seq<Child>> {
    if id !in menu.combos || menu.combos[id].archived then Err(ValidationFailed)
    else ResolveIn(menu, menu.combos[id], selections)
  }

  method FillAndCount(selections: seq<Selection>, slots: seq<Slot>) returns (r: Result<seq<Selection>>)
    ensures r == FillSlots(selections, slots)
  {
    var picks := selections;
    for k := 0 to |slots|
      invariant FillSlots(selections, slots[..k]) == Ok(picks)
    {
      assert slots[..k + 1][..k] == slots[..k];
      var slot := slots[k];
      if |slot.options| == 1 && !Touches(picks, slot) {
        picks := picks + [Selection(slot.options[0], slot.pickCount, [])];
      }
      var count := Picked(picks, slot);
      if count != slot.pickCount {
        FillFails(selections, slots, k + 1);
        return Err(ComboSelectionInvalid);
      }
    }
    assert slots[..|slots|] == slots;
    r := Ok(picks);
  }

  lemma {:induction false} FillFails(selections: seq<Selection>, slots: seq<Slot>, k: nat)
    requires k <= |slots| && FillSlots(selections, slots[..k]).Err?
    ensures FillSlots(selections, slots) == FillSlots(selections, slots[..k])
    decreases |slots|
  {
    if k == |slots| {
      assert slots[..k] == slots;
    } else {
      assert slots[..|slots| - 1][..k] == slots[..k];
      FillFails(selections, slots[..|slots| - 1], k);
    }
  }

  lemma {:induction false} ChildrenFail(menu: Menu, picks: seq<Selection>, k: nat)
    requires forall s :: s in picks ==> s.option in menu.options
    requires k <= |picks| && Children(menu, picks[..k]).Err?
    ensures Children(menu, picks) == Children(menu, picks[..k])
    decreases |picks|
  {
    if k == |picks| {
      assert picks[..k] == picks;
    } else {
      assert picks[..|picks| - 1][..k] == picks[..k];
      ChildrenFail(menu, picks[..|picks| - 1], k);
    }
  }

  method ResolveComboSelection(menu: Menu, id: Id, selections: seq<Selection>) returns (r: Result<seq<Child>>)
    ensures r == Resolve(menu, id, selections)
  {
    if id !in menu.combos || menu.combos[id].archived {
      return Err(ValidationFailed);
    }
    var combo := menu.combos[id];
    if !ComboAvailable(menu, combo) {
      return Err(ItemUnavailable);
    }
    if exists s :: s in selections && !Offers(combo, s.option) {
      return Err(ValidationFailed);
    }
    var picks :- FillAndCount(selections, combo.slots);
    assert forall s :: s in picks ==> Offers(combo, s.option);
    r := WriteChildren(menu, picks);
  }

  method WriteChildren(menu: Menu, picks: seq<Selection>) returns (r: Result<seq<Child>>)
    requires forall s :: s in picks ==> s.option in menu.options
    ensures r == Children(menu, picks)
  {
    var children := [];
    for i := 0 to |picks|
      invariant Children(menu, picks[..i]) == Ok(children)
    {
      assert picks[..i + 1][..i] == picks[..i];
      var child := ChildOf(menu, picks[i]);
      if child.Err? {
        ChildrenFail(menu, picks, i + 1);
        return Err(child.error);
      }
      children := children + [child.value];
    }
    assert picks[..|picks|] == picks;
    r := Ok(children);
  }

  // ---- What filling does -----------------------------------------------------------------------------

  /** The fixed parts a selection leaves out. */
  function Fixed(selections: seq<Selection>, slots: seq<Slot>): seq<Selection> {
    if |slots| == 0 then [] else
      var before := Fixed(selections, slots[..|slots| - 1]);
      var slot := slots[|slots| - 1];
      if |slot.options| == 1 && Picked(selections, slot) == 0 then before + [Selection(slot.options[0], slot.pickCount, [])] else before
  }

  /** The number of picks a slot asks for, or none in a slot that leaves no choice. */
  predicate Satisfied(selections: seq<Selection>, slot: Slot) {
    Picked(selections, slot) == slot.pickCount || (|slot.options| == 1 && Picked(selections, slot) == 0)
  }

  lemma {:induction false} PickedTouches(selections: seq<Selection>, slot: Slot)
    ensures Picked(selections, slot) >= 0
    ensures Touches(selections, slot) <==> Picked(selections, slot) > 0
  {
    SumByNonNegative(selections, In(slot));
    if Touches(selections, slot) {
      var s :| s in selections && s.option in slot.options;
      SumByMember(selections, In(slot), s);
    } else {
      UntouchedSum(selections, slot);
    }
  }

  lemma {:induction false} UntouchedSum(selections: seq<Selection>, slot: Slot)
    requires !Touches(selections, slot)
    ensures Picked(selections, slot) == 0
  {
    if |selections| > 0 {
      assert selections[|selections| - 1] in selections;
      UntouchedSum(selections[..|selections| - 1], slot);
    }
  }

  /** Picks that fill other slots leave this slot's count alone. */
  lemma {:induction false} FixedElsewhere(selections: seq<Selection>, slots: seq<Slot>, slot: Slot)
    requires forall j :: 0 <= j < |slots| ==> Disjoint(slots[j], slot)
    ensures !Touches(Fixed(selections, slots), slot)
  {
    if |slots| > 0 {
      var front, last := slots[..|slots| - 1], slots[|slots| - 1];
      assert forall j :: 0 <= j < |front| ==> front[j] == slots[j];
      FixedElsewhere(selections, front, slot);
      if |last.options| == 1 {
        assert Disjoint(slots[|slots| - 1], slot);
      }
    }
  }

  lemma {:induction false} WithFixedCount(selections: seq<Selection>, before: seq<Selection>, slot: Slot)
    requires Picked(before, slot) == Picked(selections, slot)
    ensures Picked(WithFixed(before, slot), slot) == slot.pickCount <==> Satisfied(selections, slot)
    ensures WithFixed(before, slot) ==
      if |slot.options| == 1 && Picked(selections, slot) == 0 then before + [Selection(slot.options[0], slot.pickCount, [])] else before
  {
    PickedTouches(before, slot);
    if |slot.options| == 1 {
      SumBySnoc(before, Selection(slot.options[0], slot.pickCount, []), In(slot));
    }
  }

  /** Filling one more slot, after the slots before it were filled. */
  lemma {:induction false} FillNext(selections: seq<Selection>, front: seq<Slot>, slot: Slot)
    requires forall j :: 0 <= j < |front| ==> Disjoint(front[j], slot)
    ensures var filled := WithFixed(selections + Fixed(selections, front), slot);
      && (Picked(filled, slot) == slot.pickCount <==> Satisfied(selections, slot))
      && filled == selections + Fixed(selections, front + [slot])
  {
    PickedBefore(selections, front, slot);
    WithFixedCount(selections, selections + Fixed(selections, front), slot);
    assert (front + [slot])[..|front|] == front;
  }

  /** The fixed parts of other slots do not count towards this one. */
  lemma {:induction false} PickedBefore(selections: seq<Selection>, front: seq<Slot>, slot: Slot)
    requires forall j :: 0 <= j < |front| ==> Disjoint(front[j], slot)
    ensures Picked(selections + Fixed(selections, front), slot) == Picked(selections, slot)
  {
    FixedElsewhere(selections, front, slot);
    UntouchedSum(Fixed(selections, front), slot);
    SumByConcat(selections, Fixed(selections, front), In(slot));
  }

  /** A selection is accepted slot by slot, and exactly the left-out fixed parts are added behind it. */
  lemma {:induction false} FillSlotsIs(selections: seq<Selection>, slots: seq<Slot>)
    requires SlotsApart(slots)
    ensures FillSlots(selections, slots).Ok? <==> forall k :: 0 <= k < |slots| ==> Satisfied(selections, slots[k])
    ensures FillSlots(selections, slots).Ok? ==> FillSlots(selections, slots).value == selections + Fixed(selections, slots)
  {
    if |slots| > 0 {
      var front, slot := slots[..|slots| - 1], slots[|slots| - 1];
      assert slots == front + [slot];
      assert forall j :: 0 <= j < |front| ==> front[j] == slots[j];
      FillSlotsIs(selections, front);
      if FillSlots(selections, front).Ok? {
        FillNext(selections, front, slot);
      }
    }
  }

  /** Nothing is left out of a selection that picks from every slot. */
  lemma {:induction false} FixedNothing(selections: seq<Selection>, slots: seq<Slot>)
    requires forall k :: 0 <= k < |slots| ==> Picked(selections, slots[k]) > 0
    ensures Fixed(selections, slots) == []
  {
    if |slots| > 0 {
      var front := slots[..|slots| - 1];
      assert forall j :: 0 <= j < |front| ==> front[j] == slots[j];
      FixedNothing(selections, front);
    }
  }

  lemma {:induction false} WithFixedElsewhere(picks: seq<Selection>, slot: Slot, other: Slot)
    requires Disjoint(other, slot)
    ensures Picked(WithFixed(picks, slot), other) == Picked(picks, other)
  {
    if |slot.options| == 1 {
      SumBySnoc(picks, Selection(slot.options[0], slot.pickCount, []), In(other));
    }
  }

  /** After filling, every slot counts to exactly its pickCount. */
  lemma {:induction false} FilledCounts(selections: seq<Selection>, slots: seq<Slot>, k: nat)
    requires SlotsApart(slots) && k < |slots| && FillSlots(selections, slots).Ok?
    ensures Picked(FillSlots(selections, slots).value, slots[k]) == slots[k].pickCount
  {
    var front, slot := slots[..|slots| - 1], slots[|slots| - 1];
    if k < |front| {
      assert front[k] == slots[k];
      FilledCounts(selections, front, k);
      WithFixedElsewhere(FillSlots(selections, front).value, slot, slots[k]);
    }
  }

  /** Filling a filled selection changes nothing. */
  lemma {:induction false} FillSlotsAgain(selections: seq<Selection>, slots: seq<Slot>)
    requires SlotsApart(slots)
    requires FillSlots(selections, slots).Ok?
    ensures FillSlots(FillSlots(selections, slots).value, slots) == FillSlots(selections, slots)
  {
    var picks := FillSlots(selections, slots).value;
    forall k | 0 <= k < |slots|
      ensures Picked(picks, slots[k]) == slots[k].pickCount
    {
      FilledCounts(selections, slots, k);
    }
    FillSlotsIs(picks, slots);
    FixedNothing(picks, slots);
    assert picks + [] == picks;
  }

  // ---- Resolving twice ---------------------------------------------------------------------------------

  /** The selection a written combo is read back as. */
  function Again(children: seq<Child>): seq<Selection> {
    seq(|children|, i requires 0 <= i < |children| => Selection(children[i].option, children[i].quantity, children[i].modifiers))
  }

  predicate Servable(menu: Menu, s: Selection) {
    s.option in menu.options && ChildOf(menu, s).Ok?
  }

  lemma {:induction false} ChildrenServable(menu: Menu, picks: seq<Selection>)
    requires forall s :: s in picks ==> s.option in menu.options
    ensures Children(menu, picks).Ok? <==> forall i :: 0 <= i < |picks| ==> Servable(menu, picks[i])
  {
    if |picks| > 0 {
      var front := picks[..|picks| - 1];
      assert forall i :: 0 <= i < |front| ==> front[i] == picks[i];
      ChildrenServable(menu, front);
    }
  }

  /** Every child is its pick with the menu's item, variant, station and extra charge. */
  lemma {:induction false} ChildrenAre(menu: Menu, picks: seq<Selection>)
    requires (forall s :: s in picks ==> s.option in menu.options) && Children(menu, picks).Ok?
    ensures |Children(menu, picks).value| == |picks|
    ensures forall i :: 0 <= i < |picks| ==> ChildOf(menu, picks[i]) == Ok(Children(menu, picks).value[i])
  {
    if |picks| > 0 {
      var front, last := picks[..|picks| - 1], picks[|picks| - 1];
      ChildrenAre(menu, front);
      assert Children(menu, picks).value == Children(menu, front).value + [ChildOf(menu, last).value];
    }
  }

  lemma {:induction false} ChildrenAgain(menu: Menu, picks: seq<Selection>)
    requires (forall s :: s in picks ==> s.option in menu.options) && Children(menu, picks).Ok?
    ensures Again(Children(menu, picks).value) == picks
  {
    ChildrenAre(menu, picks);
    var children := Children(menu, picks).value;
    forall i | 0 <= i < |picks|
      ensures Again(children)[i] == picks[i]
    {
      assert ChildOf(menu, picks[i]) == Ok(children[i]);
    }
  }

  /** What a selection must meet: known picks, every slot satisfied, everything on the plate servable as asked. */
  ghost predicate Acceptable(menu: Menu, combo: ComboDeal, selections: seq<Selection>) {
    && (forall s :: s in selections ==> Offers(combo, s.option))
    && (forall k :: 0 <= k < |combo.slots| ==> Satisfied(selections, combo.slots[k]))
    && (forall i :: 0 <= i < |Full(combo, selections)| ==> Servable(menu, Full(combo, selections)[i]))
  }

  /** The picks with the left-out fixed parts behind them. */
  function Full(combo: ComboDeal, selections: seq<Selection>): seq<Selection> {
    selections + Fixed(selections, combo.slots)
  }

  lemma {:induction false} FilledOffered(combo: ComboDeal, selections: seq<Selection>)
    requires SlotsApart(combo.slots) && FillSlots(selections, combo.slots).Ok?
    requires forall s :: s in selections ==> Offers(combo, s.option)
    ensures forall s :: s in FillSlots(selections, combo.slots).value ==> Offers(combo, s.option)
  {
  }

  lemma {:induction false} ResolveInIff(menu: Menu, combo: ComboDeal, selections: seq<Selection>)
    requires ComboAvailable(menu, combo) && SlotsApart(combo.slots)
    requires forall o :: Offers(combo, o) ==> o in menu.options
    ensures ResolveIn(menu, combo, selections).Ok? <==> Acceptable(menu, combo, selections)
  {
    FillSlotsIs(selections, combo.slots);
    if (forall s :: s in selections ==> Offers(combo, s.option)) && FillSlots(selections, combo.slots).Ok? {
      FilledOffered(combo, selections);
      var picks := Full(combo, selections);
      assert FillSlots(selections, combo.slots).value == picks;
      ChildrenServable(menu, picks);
      assert ResolveIn(menu, combo, selections) == Children(menu, picks);
    }
  }

  lemma {:induction false} ResolveInFull(menu: Menu, combo: ComboDeal, selections: seq<Selection>)
    requires SlotsApart(combo.slots)
    requires forall o :: Offers(combo, o) ==> o in menu.options
    requires ResolveIn(menu, combo, selections).Ok?
    ensures Again(ResolveIn(menu, combo, selections).value) == Full(combo, selections)
  {
    FillSlotsIs(selections, combo.slots);
    FilledOffered(combo, selections);
    ChildrenAgain(menu, Full(combo, selections));
  }

  /** A combo on sale accepts a selection exactly when it is acceptable, and writes it with the fixed parts behind it. */
  lemma {:induction false} ResolveAcceptsIff(menu: Menu, id: Id, selections: seq<Selection>)
    requires id in menu.combos && !menu.combos[id].archived && ComboAvailable(menu, menu.combos[id])
    ensures Resolve(menu, id, selections).Ok? <==> Acceptable(menu, menu.combos[id], selections)
    ensures Resolve(menu, id, selections).Ok? ==> Again(Resolve(menu, id, selections).value) == Full(menu.combos[id], selections)
  {
    ResolveInIff(menu, menu.combos[id], selections);
    if ResolveIn(menu, menu.combos[id], selections).Ok? {
      ResolveInFull(menu, menu.combos[id], selections);
    }
  }

  /** Resolving what was resolved before, on the same menu, writes the same children. */
  lemma {:induction false} ResolveAgain(menu: Menu, id: Id, selections: seq<Selection>)
    requires Resolve(menu, id, selections).Ok?
    ensures Resolve(menu, id, Again(Resolve(menu, id, selections).value)) == Resolve(menu, id, selections)
  {
    var combo := menu.combos[id];
    assert SlotsApart(combo.slots);
    var picks := FillSlots(selections, combo.slots).value;
    FilledOffered(combo, selections);
    ChildrenAgain(menu, picks);
    FillSlotsAgain(selections, combo.slots);
  }
}
