/** Placing the table's cart as an order: every line is priced again, every combo checked again. */
module Checkout {
  import opened Prelude
  import opened Rounding
  import opened Combos
  import opened Cart
  import opened Orders
  import opened Invoice
  import Tax
  import Tabs
  import TabInvariant

  function PricesOf(menu: Menu, ids: seq<Id>): seq<nat> {
    if |ids| == 0 then [] else PricesOf(menu, ids[..|ids| - 1]) + [ModifierPrice(menu, ids[|ids| - 1])]
  }

  function PickFrom(menu: Menu, c: Child): Pick {
    Pick(c.station, c.quantity, c.upcharge, PricesOf(menu, c.modifiers))
  }

  function PicksFrom(menu: Menu, children: seq<Child>): seq<Pick> {
    if |children| == 0 then [] else PicksFrom(menu, children[..|children| - 1]) + [PickFrom(menu, children[|children| - 1])]
  }

  function StationOf(menu: Menu, item: Id): Option<Id> {
    if item in menu.items then menu.items[item].station else None
  }

  /** The order lines one cart line becomes; an item without a price cannot be placed. */
  function Placed(menu: Menu, l: CartLine): Result<NewItem> {
    match l
    case CartItem(_, _, quantity, item, variant, modifiers) =>
      var price := PriceOf(menu, item, variant);
      if price.None? then Err(NoPrice) else Ok(NewLine(StationOf(menu, item), quantity, price.value, PricesOf(menu, modifiers)))
    case CartCombo(_, _, quantity, combo, _) =>
      var children :- Resolve(menu, combo, Selections(l));
      Ok(Orders.NewCombo(quantity, ComboPrice(menu, combo), PicksFrom(menu, children)))
  }

  function Placements(menu: Menu, lines: seq<CartLine>): Result<seq<Tabs.Placement>> {
    if |lines| == 0 then Ok([]) else
      var front :- Placements(menu, lines[..|lines| - 1]);
      var item :- Placed(menu, lines[|lines| - 1]);
      Ok(front + [Tabs.Placement(item, Some(lines[|lines| - 1].guest))])
  }

  function PlaceCart(menu: Menu, lines: seq<CartLine>): Result<seq<Tabs.Placement>> {
    if |lines| == 0 then Err(EmptyCart) else Placements(menu, lines)
  }

  lemma {:induction false} PlacementsFail(menu: Menu, lines: seq<CartLine>, k: nat)
    requires k <= |lines| && Placements(menu, lines[..k]).Err?
    ensures Placements(menu, lines) == Placements(menu, lines[..k])
    decreases |lines|
  {
    if k == |lines| {
      assert lines[..k] == lines;
    } else {
      assert lines[..|lines| - 1][..k] == lines[..k];
      PlacementsFail(menu, lines[..|lines| - 1], k);
    }
  }

  /** Turns the cart into the lines of one order and empties it, or refuses and leaves it. */
  method PlaceOrder(cart: TableCart, menu: Menu, sessionActive: bool) returns (r: Result<seq<Tabs.Placement>>)
    modifies cart
    ensures r == if sessionActive then PlaceCart(menu, old(cart.lines)) else Err(SessionClosed)
    ensures cart.next == old(cart.next)
    ensures cart.lines == if r.Ok? then [] else old(cart.lines)
  {
    if !sessionActive {
      return Err(SessionClosed);
    }
    var lines := cart.lines;
    if |lines| == 0 {
      return Err(EmptyCart);
    }
    var items: seq<Tabs.Placement> := [];
    for i := 0 to |lines|
      invariant Placements(menu, lines[..i]) == Ok(items)
      invariant cart.lines == lines && cart.next == old(cart.next)
    {
      assert lines[..i + 1][..i] == lines[..i];
      var item := Placed(menu, lines[i]);
      if item.Err? {
        PlacementsFail(menu, lines, i + 1);
        return Err(item.error);
      }
      items := items + [Tabs.Placement(item.value, Some(lines[i].guest))];
    }
    assert lines[..|lines|] == lines;
    cart.lines := [];
    r := Ok(items);
  }

  // ---- What an order costs against what its cart showed ---------------------------------------------

  lemma {:induction false} PricesSum(menu: Menu, ids: seq<Id>)
    ensures SumBy(PricesOf(menu, ids), Price) == ModifiersTotal(menu, ids)
  {
    if |ids| > 0 {
      var front, last := ids[..|ids| - 1], ids[|ids| - 1];
      PricesSum(menu, front);
      SumBySnoc(PricesOf(menu, front), ModifierPrice(menu, last), Price);
    }
  }

  lemma {:induction false} PickFromCost(menu: Menu, c: Child)
    requires c.upcharge == Upcharge(menu, c.option)
    ensures PickPrice(PickFrom(menu, c)) == PickCost(menu)(Selection(c.option, c.quantity, c.modifiers))
  {
    PricesSum(menu, c.modifiers);
  }

  lemma {:induction false} AgainSnoc(front: seq<Child>, last: Child, children: seq<Child>)
    requires |children| == |front| + 1 && front == children[..|front|] && last == children[|front|]
    ensures Again(children) == Again(front) + [Selection(last.option, last.quantity, last.modifiers)]
  {
  }

  lemma {:induction false} PicksCost(menu: Menu, children: seq<Child>)
    requires forall c :: c in children ==> c.upcharge == Upcharge(menu, c.option)
    ensures SumBy(PicksFrom(menu, children), PickPrice) == SumBy(Again(children), PickCost(menu))
  {
    if |children| > 0 {
      var front, last := children[..|children| - 1], children[|children| - 1];
      assert last in children;
      PicksCost(menu, front);
      PickFromCost(menu, last);
      SumBySnoc(PicksFrom(menu, front), PickFrom(menu, last), PickPrice);
      AgainSnoc(front, last, children);
      SumBySnoc(Again(front), Selection(last.option, last.quantity, last.modifiers), PickCost(menu));
    }
  }

  lemma {:induction false} ResolvedUpcharges(menu: Menu, combo: Id, selections: seq<Selection>)
    requires Resolve(menu, combo, selections).Ok?
    ensures forall c :: c in Resolve(menu, combo, selections).value ==> c.upcharge == Upcharge(menu, c.option)
  {
    var deal := menu.combos[combo];
    var picks := FillSlots(selections, deal.slots).value;
    FilledOffered(deal, selections);
    ChildrenAre(menu, picks);
    var children := Resolve(menu, combo, selections).value;
    forall c | c in children
      ensures c.upcharge == Upcharge(menu, c.option)
    {
      var i :| 0 <= i < |children| && children[i] == c;
      assert ChildOf(menu, picks[i]) == Ok(c);
    }
  }

  /** What placement adds to a line the cart did not show: fixed parts the combo gained since. */
  function Gained(menu: Menu): CartLine -> int {
    (l: CartLine) =>
      if l.CartCombo? && l.combo in menu.combos
      then l.quantity * SumBy(Fixed(Selections(l), menu.combos[l.combo].slots), PickCost(menu))
      else 0
  }

  lemma {:induction false} ResolvedCost(menu: Menu, combo: Id, selections: seq<Selection>)
    requires Resolve(menu, combo, selections).Ok?
    ensures SumBy(PicksFrom(menu, Resolve(menu, combo, selections).value), PickPrice) ==
      SumBy(selections, PickCost(menu)) + SumBy(Fixed(selections, menu.combos[combo].slots), PickCost(menu))
  {
    ResolveAcceptsIff(menu, combo, selections);
    ResolvedUpcharges(menu, combo, selections);
    PicksCost(menu, Resolve(menu, combo, selections).value);
    SumByConcat(selections, Fixed(selections, menu.combos[combo].slots), PickCost(menu));
  }

  lemma {:induction false} ComboTotal(quantity: Qty, price: nat, picks: seq<Pick>, shown: int, added: int)
    requires SumBy(picks, PickPrice) == shown + added
    ensures ItemTotal(Orders.NewCombo(quantity, price, picks)) == (price + shown) * quantity + quantity * added
  {
    Distribute(quantity, price + shown, added);
  }

  lemma {:induction false} ComboPlacedCost(menu: Menu, l: CartLine, children: seq<Child>)
    requires l.CartCombo? && l.combo in menu.combos
    requires SumBy(PicksFrom(menu, children), PickPrice) ==
      SumBy(Selections(l), PickCost(menu)) + SumBy(Fixed(Selections(l), menu.combos[l.combo].slots), PickCost(menu))
    ensures ItemTotal(Orders.NewCombo(l.quantity, ComboPrice(menu, l.combo), PicksFrom(menu, children))) == Cost(menu)(l) + Gained(menu)(l)
  {
    var shown := SumBy(Selections(l), PickCost(menu));
    var added := SumBy(Fixed(Selections(l), menu.combos[l.combo].slots), PickCost(menu));
    ComboTotal(l.quantity, ComboPrice(menu, l.combo), PicksFrom(menu, children), shown, added);
    assert Gained(menu)(l) == l.quantity * added;
    assert Cost(menu)(l) == (ComboPrice(menu, l.combo) + shown) * l.quantity;
  }

  /** Whatever happened to the menu, a placed line costs what the cart shows plus the fixed parts filled in. */
  lemma {:induction false} PlacedCost(menu: Menu, l: CartLine)
    requires Placed(menu, l).Ok?
    ensures ItemTotal(Placed(menu, l).value) == Cost(menu)(l) + Gained(menu)(l)
  {
    match l
    case CartItem(_, _, _, _, _, modifiers) => PricesSum(menu, modifiers);
    case CartCombo(_, _, quantity, combo, _) =>
      ResolvedCost(menu, combo, Selections(l));
      ComboPlacedCost(menu, l, Resolve(menu, combo, Selections(l)).value);
  }

  function PlacementTotal(p: Tabs.Placement): int {
    ItemTotal(p.item)
  }

  lemma {:induction false} PlacementsCost(menu: Menu, lines: seq<CartLine>)
    requires Placements(menu, lines).Ok?
    ensures SumBy(Placements(menu, lines).value, PlacementTotal) == CartTotal(menu, lines) + SumBy(lines, Gained(menu))
  {
    if |lines| > 0 {
      var front, last := lines[..|lines| - 1], lines[|lines| - 1];
      PlacementsCost(menu, front);
      PlacedCost(menu, last);
      SumBySnoc(Placements(menu, front).value, Tabs.Placement(Placed(menu, last).value, Some(last.guest)), PlacementTotal);
    }
  }

  lemma {:induction false} PlaceItemsSubtotal(tab: Tabs.Tab, items: seq<Tabs.Placement>)
    ensures Subtotal(Tabs.PlaceItems(tab, items).lines) == Subtotal(tab.lines) + SumBy(items, PlacementTotal)
  {
    if |items| > 0 {
      var front, last := items[..|items| - 1], items[|items| - 1];
      PlaceItemsSubtotal(tab, front);
      AddItemTotal(Tabs.PlaceItems(tab, front).lines, Tabs.PlaceItems(tab, front).next, last.item, last.guest);
    }
  }

  lemma {:induction false} PlacedSubtotal(country: Tax.Country, outlet: Id, env: Tabs.Env, items: seq<Tabs.Placement>)
    ensures Subtotal(Tabs.Place(country, outlet, env, items).lines) == SumBy(items, PlacementTotal)
    ensures SumBy(InvoiceLines(Tabs.Place(country, outlet, env, items).lines), PrintedTotal) == SumBy(items, PlacementTotal)
  {
    var empty := Tabs.NewTab(country, outlet, env.now);
    PlaceItemsSubtotal(empty, items);
    TabInvariant.NewTabOk(country, outlet, env.now);
    TabInvariant.PlaceItemsOk(empty, items, env.now);
    var tab := Tabs.PlaceItems(empty, items);
    InvoiceSumsToSubtotal(tab.lines, tab.next);
  }

  /** On the menu it was filled from, a cart gains nothing at placement. */
  lemma {:induction false} FitGainsNothing(menu: Menu, l: CartLine)
    requires Fits(menu, l)
    ensures Gained(menu)(l) == 0
  {
    if l.CartCombo? {
      ResolveAcceptsIff(menu, l.combo, Selections(l));
      var added := Fixed(Selections(l), menu.combos[l.combo].slots);
      assert |Selections(l) + added| == |Selections(l)| + |added|;
    }
  }

  lemma {:induction false} FitCartGainsNothing(menu: Menu, lines: seq<CartLine>)
    requires CartFits(menu, lines)
    ensures SumBy(lines, Gained(menu)) == 0
  {
    if |lines| > 0 {
      var front, last := lines[..|lines| - 1], lines[|lines| - 1];
      assert last in lines;
      FitGainsNothing(menu, last);
      FitCartGainsNothing(menu, front);
    }
  }

  /** A single item of the cart has a price right now. */
  predicate HasPrice(menu: Menu, l: CartLine) {
    l.CartItem? ==> PriceOf(menu, l.item, l.variant).Some?
  }

  lemma {:induction false} FitPlaced(menu: Menu, l: CartLine)
    requires Fits(menu, l)
    ensures Placed(menu, l).Ok? <==> HasPrice(menu, l)
    ensures Placed(menu, l).Err? ==> Placed(menu, l).error == NoPrice
  {
  }

  ghost predicate AllPriced(menu: Menu, lines: seq<CartLine>) {
    forall i :: 0 <= i < |lines| ==> HasPrice(menu, lines[i])
  }

  lemma {:induction false} AllPricedSnoc(menu: Menu, front: seq<CartLine>, last: CartLine)
    ensures AllPriced(menu, front + [last]) <==> AllPriced(menu, front) && HasPrice(menu, last)
  {
    if AllPriced(menu, front + [last]) {
      assert forall i :: 0 <= i < |front| ==> front[i] == (front + [last])[i];
      assert (front + [last])[|front|] == last;
    }
  }

  lemma {:induction false} FitPlaces(menu: Menu, lines: seq<CartLine>)
    requires CartFits(menu, lines)
    ensures Placements(menu, lines).Ok? <==> AllPriced(menu, lines)
    ensures Placements(menu, lines).Err? ==> Placements(menu, lines).error == NoPrice
  {
    if |lines| > 0 {
      var front, last := lines[..|lines| - 1], lines[|lines| - 1];
      assert lines == front + [last] && last in lines;
      FitPlaces(menu, front);
      FitPlaced(menu, last);
      AllPricedSnoc(menu, front, last);
    }
  }

  /**
   * However the guests filled the cart, with the menu unchanged it is refused only when it is empty or an item has
   * no price; otherwise the order's subtotal and its invoice lines come to exactly the total the cart showed.
   */
  lemma {:induction false} CartTotalIsBilled(menu: Menu, requests: seq<Request>, country: Tax.Country, outlet: Id, env: Tabs.Env)
    ensures var lines := Fill(menu, requests).lines;
      && (PlaceCart(menu, lines).Ok? <==> lines != [] && AllPriced(menu, lines))
      && (PlaceCart(menu, lines).Ok? ==>
        var order := Tabs.Place(country, outlet, env, PlaceCart(menu, lines).value).lines;
        Subtotal(order) == CartTotal(menu, lines) && SumBy(InvoiceLines(order), PrintedTotal) == CartTotal(menu, lines))
  {
    var lines := Fill(menu, requests).lines;
    FilledCartFits(menu, requests);
    FitPlaces(menu, lines);
    FitCartGainsNothing(menu, lines);
    if PlaceCart(menu, lines).Ok? {
      PlacementsCost(menu, lines);
      PlacedSubtotal(country, outlet, env, PlaceCart(menu, lines).value);
    }
  }

  /** When the menu did change, an order that goes through costs what the cart shows now plus the fixed parts gained. */
  lemma {:induction false} ChangedMenuDifference(menu: Menu, lines: seq<CartLine>, country: Tax.Country, outlet: Id, env: Tabs.Env)
    requires PlaceCart(menu, lines).Ok?
    ensures Subtotal(Tabs.Place(country, outlet, env, PlaceCart(menu, lines).value).lines) == CartTotal(menu, lines) + SumBy(lines, Gained(menu))
  {
    PlacementsCost(menu, lines);
    PlacedSubtotal(country, outlet, env, PlaceCart(menu, lines).value);
  }

  // ---- What is placed ----------------------------------------------------------------------------------

  /** An item line is placed exactly when it has a price, at that price, with its own quantity and its item's own station. */
  lemma {:induction false} ItemPlacedAs(menu: Menu, l: CartLine)
    requires l.CartItem? && l.item in menu.items
    ensures Placed(menu, l).Ok? <==> HasPrice(menu, l)
    ensures Placed(menu, l).Ok? ==>
              var item := Placed(menu, l).value;
              && item.NewLine? && item.station == menu.items[l.item].station && item.quantity == l.quantity
              && Some(item.price) == PriceOf(menu, l.item, l.variant)
              && |item.modifiers| == |l.modifiers| && SumBy(item.modifiers, Price) == ModifiersTotal(menu, l.modifiers)
  {
    PricesSum(menu, l.modifiers);
    PricesCount(menu, l.modifiers);
  }

  lemma {:induction false} PricesCount(menu: Menu, ids: seq<Id>)
    ensures |PricesOf(menu, ids)| == |ids|
  {
    if |ids| > 0 {
      PricesCount(menu, ids[..|ids| - 1]);
    }
  }

  lemma {:induction false} PlacementsSnoc(menu: Menu, lines: seq<CartLine>)
    requires |lines| > 0 && Placements(menu, lines).Ok?
    ensures var front, last := lines[..|lines| - 1], lines[|lines| - 1];
            && Placements(menu, front).Ok? && Placed(menu, last).Ok?
            && Placements(menu, lines).value == Placements(menu, front).value + [Tabs.Placement(Placed(menu, last).value, Some(last.guest))]
  {
  }

  lemma {:induction false} PlacementsLength(menu: Menu, lines: seq<CartLine>)
    requires Placements(menu, lines).Ok?
    ensures |Placements(menu, lines).value| == |lines|
  {
    if |lines| > 0 {
      PlacementsSnoc(menu, lines);
      PlacementsLength(menu, lines[..|lines| - 1]);
    }
  }

  /** A cart line placed as it is, for the guest who added it. */
  ghost predicate PlacedFor(menu: Menu, l: CartLine, p: Tabs.Placement) {
    p.guest == Some(l.guest) && Placed(menu, l) == Ok(p.item)
  }

  /** Every cart line is placed, in cart order, for the guest who added it. */
  lemma {:induction false} PlacedForGuests(menu: Menu, lines: seq<CartLine>, k: nat)
    requires Placements(menu, lines).Ok? && k < |lines|
    ensures |Placements(menu, lines).value| == |lines| && PlacedFor(menu, lines[k], Placements(menu, lines).value[k])
  {
    PlacementsSnoc(menu, lines);
    PlacementsLength(menu, lines);
    PlacementsLength(menu, lines[..|lines| - 1]);
    if k < |lines| - 1 {
      PlacedForGuests(menu, lines[..|lines| - 1], k);
    }
  }
}
