/** The shared table cart: guests' lines, combos with their picks, and what the cart shows. */
module Cart {
  import opened Prelude
  import opened Rounding
  import opened Combos
  import Orders
  import Pricing

  datatype CartPick = CartPick(id: Id, option: Id, quantity: Qty, modifiers: Ids)

  datatype CartRow =
    | CartItem(id: Id, guest: Id, quantity: Qty, item: Id, variant: Option<Id>, modifiers: Ids)
    | CartCombo(id: Id, guest: Id, quantity: Qty, combo: Id, picks: seq<CartPick>)

  predicate WholePick(p: CartPick, combos: Qty) {
    p.quantity / combos >= 1 && p.quantity == (p.quantity / combos) * combos
  }

  /** A pick's quantity is a whole number per combo. */
  predicate Whole(r: CartRow) {
    r.CartCombo? ==> forall p :: p in r.picks ==> WholePick(p, r.quantity)
  }

  /** Every write of a cart line has to keep its picks whole. */
  type CartLine = r: CartRow | Whole(r) witness CartItem(0, 0, 1, 0, None, [])

  datatype Rows = Rows(lines: seq<CartLine>, next: Id)

  function PerCombo(p: CartPick, combos: Qty): Selection
    requires WholePick(p, combos)
  {
    Selection(p.option, p.quantity / combos, p.modifiers)
  }

  /** The picks per one combo, as placement reads them back. */
  function Selections(l: CartLine): seq<Selection>
    requires l.CartCombo?
  {
    seq(|l.picks|, i requires 0 <= i < |l.picks| => PerCombo(l.picks[i], l.quantity))
  }

  // ---- Changing the cart ---------------------------------------------------------------------------

  function Times(quantity: Qty, combos: Qty): (q: Qty)
    ensures q / combos == quantity && q == quantity * combos
  {
    MultipleGap(quantity, combos, 1, 0);
    Orders.MultipleExact(quantity, combos);
    quantity * combos
  }

  function PickRow(c: Child, combos: Qty, id: Id): (p: CartPick)
    ensures WholePick(p, combos) && PerCombo(p, combos) == Selection(c.option, c.quantity, c.modifiers)
  {
    CartPick(id, c.option, Times(c.quantity, combos), c.modifiers)
  }

  /** The parent line and one child line per pick; reading it back gives the selection that was resolved. */
  function NewCombo(id: Id, guest: Id, combos: Qty, combo: Id, children: seq<Child>): (l: CartLine)
    ensures l.CartCombo? && l.combo == combo && Selections(l) == Again(children)
  {
    CartCombo(id, guest, combos, combo, seq(|children|, i requires 0 <= i < |children| => PickRow(children[i], combos, id + 1 + i)))
  }

  function ScaledPick(p: CartPick, was: Qty, now: Qty): (p': CartPick)
    requires WholePick(p, was)
    ensures WholePick(p', now) && PerCombo(p', now) == PerCombo(p, was)
  {
    p.(quantity := Times(p.quantity / was, now))
  }

  function ScaledPicks(picks: seq<CartPick>, was: Qty, now: Qty): seq<CartPick>
    requires forall p :: p in picks ==> WholePick(p, was)
  {
    seq(|picks|, i requires 0 <= i < |picks| => ScaledPick(picks[i], was, now))
  }

  /** A combo's picks scale with it, so what is picked per combo stays the same. */
  function Scaled(l: CartLine, quantity: Qty): (l': CartLine)
    ensures l'.CartCombo? == l.CartCombo?
    ensures l.CartCombo? ==> l'.combo == l.combo && Selections(l') == Selections(l)
  {
    match l
    case CartItem(id, guest, _, item, variant, modifiers) => CartItem(id, guest, quantity, item, variant, modifiers)
    case CartCombo(id, guest, was, combo, picks) => CartCombo(id, guest, quantity, combo, ScaledPicks(picks, was, quantity))
  }

  function LineAt(lines: seq<CartLine>, id: Id): (r: Option<nat>)
    ensures r.Some? ==> r.value < |lines| && lines[r.value].id == id
    ensures r.None? ==> forall i :: 0 <= i < |lines| ==> lines[i].id != id
  {
    if |lines| == 0 then None
    else if lines[|lines| - 1].id == id then Some(|lines| - 1)
    else LineAt(lines[..|lines| - 1], id)
  }

  predicate HasPick(l: CartLine, id: Id) {
    l.CartCombo? && exists p :: p in l.picks && p.id == id
  }

  /** The line to change: it must be the guest's own, and a combo's pick changes only with its combo. */
  function LoadOwn(lines: seq<CartLine>, guest: Id, id: Id): (r: Result<nat>)
    ensures r.Ok? ==> r.value < |lines| && lines[r.value].id == id && lines[r.value].guest == guest
  {
    var i := LineAt(lines, id);
    if i.Some? then (if lines[i.value].guest == guest then Ok(i.value) else Err(Forbidden))
    else if exists l :: l in lines && HasPick(l, id) && l.guest == guest then Err(ComboLocked)
    else if exists l :: l in lines && HasPick(l, id) then Err(Forbidden)
    else Err(NotFound)
  }

  datatype CartOp =
    | AddLine(item: Id, variant: Option<Id>, quantity: Qty, modifiers: Ids)
    | AddCombo(combo: Id, quantity: Qty, selections: seq<Selection>)
    | UpdateLine(line: Id, newQuantity: Option<Qty>, newModifiers: Option<Ids>)
    | RemoveLine(line: Id)

  function LoadItem(menu: Menu, id: Id): (r: Result<MenuItem>)
    ensures r.Ok? ==> id in menu.items && r.value == menu.items[id] && !r.value.archived
  {
    if id !in menu.items || menu.items[id].archived then Err(ValidationFailed) else Ok(menu.items[id])
  }

  /** A single item needs both switches on: the tenant's and, if set, the outlet's. */
  function Added(menu: Menu, rows: Rows, guest: Id, id: Id, variant: Option<Id>, quantity: Qty, modifiers: Ids): Result<Rows> {
    var item :- LoadItem(menu, id);
    if variant.Some? && variant.value !in item.variants then Err(ValidationFailed)
    else if !item.available || item.atOutlet == Some(false) then Err(ItemUnavailable)
    else
      var _ :- CheckModifiers(item, modifiers);
      Ok(Rows(rows.lines + [CartItem(rows.next, guest, quantity, id, variant, modifiers)], rows.next + 1))
  }

  function ComboAdded(menu: Menu, rows: Rows, guest: Id, combo: Id, quantity: Qty, selections: seq<Selection>): Result<Rows> {
    var children :- Resolve(menu, combo, selections);
    Ok(Rows(rows.lines + [NewCombo(rows.next, guest, quantity, combo, children)], rows.next + 1 + |children|))
  }

  function Updated(menu: Menu, rows: Rows, guest: Id, id: Id, quantity: Option<Qty>, modifiers: Option<Ids>): Result<Rows> {
    var i :- LoadOwn(rows.lines, guest, id);
    var line := rows.lines[i];
    if line.CartCombo? && modifiers.Some? then Err(ComboLocked) else
      var line' := if quantity.Some? then Scaled(line, quantity.value) else line;
      if modifiers.None? then Ok(rows.(lines := rows.lines[i := line'])) else
        var item :- LoadItem(menu, line.item);
        var _ :- CheckModifiers(item, modifiers.value);
        var line'' := line'.(modifiers := modifiers.value);
        Ok(rows.(lines := rows.lines[i := line'']))
  }

  function Removed(rows: Rows, guest: Id, id: Id): Result<Rows> {
    var i :- LoadOwn(rows.lines, guest, id);
    Ok(rows.(lines := rows.lines[..i] + rows.lines[i + 1..]))
  }

  function Change(menu: Menu, rows: Rows, guest: Id, sessionActive: bool, op: CartOp): Result<Rows> {
    if !sessionActive then Err(SessionClosed) else
      match op
      case AddLine(item, variant, quantity, modifiers) => Added(menu, rows, guest, item, variant, quantity, modifiers)
      case AddCombo(combo, quantity, selections) => ComboAdded(menu, rows, guest, combo, quantity, selections)
      case UpdateLine(line, quantity, modifiers) => Updated(menu, rows, guest, line, quantity, modifiers)
      case RemoveLine(line) => Removed(rows, guest, line)
  }

  // ---- The rows, updated in place --------------------------------------------------------------------

  class TableCart {
    var lines: seq<CartLine>
    var next: Id

    ghost function Contents(): Rows
      reads this
    {
      Rows(lines, next)
    }

    constructor ()
      ensures Contents() == Rows([], 0)
    {
      lines, next := [], 0;
    }

    /** Creates the parent line and then one line per pick. */
    method AddComboLine(menu: Menu, guest: Id, combo: Id, quantity: Qty, selections: seq<Selection>) returns (r: Result<()>)
      modifies this
      ensures Settles(old(Contents()), ComboAdded(menu, old(Contents()), guest, combo, quantity, selections), Contents(), r)
    {
      var children :- ResolveComboSelection(menu, combo, selections);
      var picks: seq<CartPick> := [];
      for i := 0 to |children|
        invariant |picks| == i
        invariant forall k :: 0 <= k < i ==> picks[k] == PickRow(children[k], quantity, next + 1 + k)
      {
        picks := picks + [CartPick(next + 1 + i, children[i].option, Times(children[i].quantity, quantity), children[i].modifiers)];
      }
      assert picks == NewCombo(next, guest, quantity, combo, children).picks;
      lines := lines + [CartCombo(next, guest, quantity, combo, picks)];
      next := next + 1 + |children|;
      r := Ok(());
    }

    /** The new quantity of a line and, for a combo, of every pick with it. */
    method Rescale(i: nat, quantity: Qty)
      requires i < |lines|
      modifies this`lines
      ensures lines == old(lines)[i := Scaled(old(lines)[i], quantity)]
    {
      var line := lines[i];
      match line
      case CartItem(id, guest, _, item, variant, modifiers) => lines := lines[i := CartItem(id, guest, quantity, item, variant, modifiers)];
      case CartCombo(id, guest, was, combo, picks) =>
        var scaled: seq<CartPick> := [];
        for k := 0 to |picks|
          invariant |scaled| == k
          invariant forall j :: 0 <= j < k ==> scaled[j] == ScaledPick(picks[j], was, quantity)
        {
          assert picks[k] in line.picks;
          scaled := scaled + [picks[k].(quantity := Times(picks[k].quantity / was, quantity))];
        }
        assert scaled == Scaled(line, quantity).picks;
        lines := lines[i := CartCombo(id, guest, quantity, combo, scaled)];
    }

    /** Runs one guest request; a refusal leaves the cart as it was. */
    method Execute(menu: Menu, guest: Id, sessionActive: bool, op: CartOp) returns (r: Result<()>)
      modifies this
      ensures Settles(old(Contents()), Change(menu, old(Contents()), guest, sessionActive, op), Contents(), r)
    {
      if !sessionActive {
        return Err(SessionClosed);
      }
      match op
      case AddLine(id, variant, quantity, modifiers) =>
        var done :- Added(menu, Rows(lines, next), guest, id, variant, quantity, modifiers);
        lines, next := done.lines, done.next;
        r := Ok(());
      case AddCombo(combo, quantity, selections) =>
        r := AddComboLine(menu, guest, combo, quantity, selections);
      case UpdateLine(id, quantity, modifiers) =>
        var i :- LoadOwn(lines, guest, id);
        if lines[i].CartCombo? && modifiers.Some? {
          return Err(ComboLocked);
        }
        if modifiers.Some? {
          var item :- LoadItem(menu, lines[i].item);
          var _ :- CheckModifiers(item, modifiers.value);
        }
        if quantity.Some? {
          Rescale(i, quantity.value);
        }
        if modifiers.Some? {
          lines := lines[i := lines[i].(modifiers := modifiers.value)];
        }
        r := Ok(());
      case RemoveLine(id) =>
        var i :- LoadOwn(lines, guest, id);
        lines := lines[..i] + lines[i + 1..];
        r := Ok(());
    }
  }

  /** A transaction's answer and the rows it leaves. */
  ghost predicate Settles(before: Rows, done: Result<Rows>, after: Rows, r: Result<()>) {
    match done
    case Ok(rows) => r.Ok? && after == rows
    case Err(e) => r == Err(e) && after == before
  }

  // ---- What the cart shows -----------------------------------------------------------------------------

  function ModifierPrice(menu: Menu, m: Id): nat {
    if m in menu.modifiers then menu.modifiers[m] else 0
  }

  function Priced(menu: Menu): Id -> int {
    (m: Id) => ModifierPrice(menu, m)
  }

  function ModifiersTotal(menu: Menu, ids: seq<Id>): (t: nat) {
    SumByNonNegative(ids, Priced(menu));
    SumBy(ids, Priced(menu))
  }

  /** The live price of an item for guests at this outlet. */
  function PriceOf(menu: Menu, item: Id, variant: Option<Id>): Option<nat> {
    var row := Pricing.Resolve(menu.prices, item, variant, Pricing.Target(Pricing.Qr, Some(menu.outlet)), menu.asOf);
    if row.None? then None else Some(row.value.price)
  }

  function Upcharge(menu: Menu, option: Id): nat {
    if option in menu.options then menu.options[option].upcharge else 0
  }

  function PickCost(menu: Menu): Selection -> int {
    (s: Selection) => s.quantity * (Upcharge(menu, s.option) + ModifiersTotal(menu, s.modifiers))
  }

  function ComboPrice(menu: Menu, combo: Id): nat {
    if combo in menu.combos then menu.combos[combo].price else 0
  }

  /** An item without a price shows as free; a combo shows its price and every pick's extra charge. */
  function UnitCost(menu: Menu, l: CartLine): int {
    match l
    case CartItem(_, _, _, item, variant, modifiers) =>
      var price := PriceOf(menu, item, variant);
      (if price.Some? then price.value else 0) + ModifiersTotal(menu, modifiers)
    case CartCombo(_, _, _, combo, _) =>
      ComboPrice(menu, combo) + SumBy(Selections(l), PickCost(menu))
  }

  datatype LineView = LineView(id: Id, guest: Id, quantity: Qty, unitPrice: int, lineTotal: int)

  function View(menu: Menu, l: CartLine): LineView {
    LineView(l.id, l.guest, l.quantity, UnitCost(menu, l), UnitCost(menu, l) * l.quantity)
  }

  function Cost(menu: Menu): CartLine -> int {
    (l: CartLine) => View(menu, l).lineTotal
  }

  function CartTotal(menu: Menu, lines: seq<CartLine>): int {
    SumBy(lines, Cost(menu))
  }

  function Views(menu: Menu, lines: seq<CartLine>): seq<LineView> {
    seq(|lines|, i requires 0 <= i < |lines| => View(menu, lines[i]))
  }

  datatype GuestCart = GuestCart(guest: Id, lines: seq<LineView>, subtotal: int)

  function SubtotalOf(g: GuestCart): int {
    g.subtotal
  }

  function TotalOf(v: LineView): int {
    v.lineTotal
  }

  function OwnedBy(guest: Id): LineView -> bool {
    (v: LineView) => v.guest == guest
  }

  /** One guest's part: exactly their own lines in cart order, and what those come to. */
  ghost predicate IsPartOf(views: seq<LineView>, g: GuestCart) {
    && g.lines == Filter(views, OwnedBy(g.guest))
    && g.lines != []
    && g.subtotal == SumBy(g.lines, TotalOf)
  }

  ghost predicate Apart(guests: seq<GuestCart>) {
    forall i, j :: 0 <= i < j < |guests| ==> guests[i].guest != guests[j].guest
  }

  ghost predicate Listed(guests: seq<GuestCart>, guest: Id) {
    exists g :: g in guests && g.guest == guest
  }

  /** The cart grouped by guest, nobody listed twice and nobody with a line left out. */
  ghost predicate Grouped(views: seq<LineView>, guests: seq<GuestCart>) {
    && (forall g :: g in guests ==> IsPartOf(views, g))
    && Apart(guests)
    && (forall v :: v in views ==> Listed(guests, v.guest))
  }

  function GuestAt(guests: seq<GuestCart>, guest: Id): (r: Option<nat>)
    ensures r.Some? ==> r.value < |guests| && guests[r.value].guest == guest
    ensures r.None? ==> !Listed(guests, guest)
  {
    if |guests| == 0 then None
    else if guests[|guests| - 1].guest == guest then Some(|guests| - 1)
    else
      assert guests == guests[..|guests| - 1] + [guests[|guests| - 1]];
      GuestAt(guests[..|guests| - 1], guest)
  }

  function Joined(g: GuestCart, v: LineView): GuestCart {
    g.(lines := g.lines + [v], subtotal := g.subtotal + v.lineTotal)
  }

  /** The guests after one more line: it joins its guest's part, or starts one. */
  function WithView(guests: seq<GuestCart>, v: LineView): seq<GuestCart> {
    var at := GuestAt(guests, v.guest);
    if at.None? then guests + [Joined(GuestCart(v.guest, [], 0), v)]
    else guests[at.value := Joined(guests[at.value], v)]
  }

  function ByGuest(views: seq<LineView>): seq<GuestCart> {
    if |views| == 0 then [] else WithView(ByGuest(views[..|views| - 1]), views[|views| - 1])
  }

  lemma {:induction false} PartJoins(views: seq<LineView>, v: LineView, g: GuestCart)
    requires g.guest == v.guest
    requires g.lines == Filter(views, OwnedBy(g.guest)) && g.subtotal == SumBy(g.lines, TotalOf)
    ensures IsPartOf(views + [v], Joined(g, v))
  {
    FilterSnoc(views, v, OwnedBy(g.guest));
    SumBySnoc(g.lines, v, TotalOf);
  }

  lemma {:induction false} PartStays(views: seq<LineView>, v: LineView, g: GuestCart)
    requires IsPartOf(views, g) && g.guest != v.guest
    ensures IsPartOf(views + [v], g)
  {
    FilterSnoc(views, v, OwnedBy(g.guest));
  }

  lemma {:induction false} OwnsNothing(views: seq<LineView>, guest: Id)
    requires forall v :: v in views ==> v.guest != guest
    ensures Filter(views, OwnedBy(guest)) == []
  {
    if |views| > 0 {
      assert views[|views| - 1] in views;
      OwnsNothing(views[..|views| - 1], guest);
    }
  }

  lemma {:induction false} WithViewPart(views: seq<LineView>, v: LineView, guests: seq<GuestCart>, k: nat)
    requires Grouped(views, guests) && k < |WithView(guests, v)|
    ensures IsPartOf(views + [v], WithView(guests, v)[k])
  {
    var at := GuestAt(guests, v.guest);
    if k == |guests| {
      OwnsNothing(views, v.guest);
      PartJoins(views, v, GuestCart(v.guest, [], 0));
    } else {
      assert guests[k] in guests;
      if at == Some(k) {
        PartJoins(views, v, guests[k]);
      } else {
        PartStays(views, v, guests[k]);
      }
    }
  }

  lemma {:induction false} WithViewApart(guests: seq<GuestCart>, v: LineView)
    requires Apart(guests)
    ensures Apart(WithView(guests, v))
  {
    if GuestAt(guests, v.guest).None? {
      assert forall k :: 0 <= k < |guests| ==> guests[k] in guests;
    }
  }

  lemma {:induction false} WithViewListed(guests: seq<GuestCart>, v: LineView, guest: Id)
    requires Listed(guests, guest) || guest == v.guest
    ensures Listed(WithView(guests, v), guest)
  {
    var guests' := WithView(guests, v);
    var at := GuestAt(guests, v.guest);
    if guest == v.guest {
      assert guests'[if at.None? then |guests| else at.value] in guests';
    } else {
      var g :| g in guests && g.guest == guest;
      var k :| 0 <= k < |guests| && guests[k] == g;
      assert guests'[k] in guests';
    }
  }

  lemma {:induction false} WithViewGrouped(views: seq<LineView>, v: LineView, guests: seq<GuestCart>)
    requires Grouped(views, guests)
    ensures Grouped(views + [v], WithView(guests, v))
  {
    var guests' := WithView(guests, v);
    forall g | g in guests'
      ensures IsPartOf(views + [v], g)
    {
      var k :| 0 <= k < |guests'| && guests'[k] == g;
      WithViewPart(views, v, guests, k);
    }
    WithViewApart(guests, v);
    forall x | x in views + [v]
      ensures Listed(guests', x.guest)
    {
      WithViewListed(guests, v, x.guest);
    }
  }

  lemma {:induction false} NobodyGrouped()
    ensures Grouped([], [])
  {
  }

  /** The view lists every guest once, with exactly their lines in order and what those come to. */
  lemma {:induction false} CartViewGrouped(views: seq<LineView>)
    ensures Grouped(views, ByGuest(views))
  {
    if |views| == 0 {
      assert views == [] && ByGuest(views) == [];
      NobodyGrouped();
    } else {
      var front, last := views[..|views| - 1], views[|views| - 1];
      assert views == front + [last];
      assert ByGuest(views) == WithView(ByGuest(front), last);
      CartViewGrouped(front);
      WithViewGrouped(front, last, ByGuest(front));
    }
  }

  /** The guests' subtotals add up to what every line costs. */
  lemma {:induction false} CartViewTotal(views: seq<LineView>)
    ensures SumBy(ByGuest(views), SubtotalOf) == SumBy(views, TotalOf)
  {
    if |views| > 0 {
      var guests, v := ByGuest(views[..|views| - 1]), views[|views| - 1];
      CartViewTotal(views[..|views| - 1]);
      var at := GuestAt(guests, v.guest);
      if at.None? {
        SumBySnoc(guests, Joined(GuestCart(v.guest, [], 0), v), SubtotalOf);
      } else {
        SumByUpdate(guests, at.value, Joined(guests[at.value], v), SubtotalOf);
      }
    }
  }

  lemma {:induction false} ViewsTotal(menu: Menu, lines: seq<CartLine>)
    ensures SumBy(Views(menu, lines), TotalOf) == CartTotal(menu, lines)
  {
    if |lines| > 0 {
      ViewsTotal(menu, lines[..|lines| - 1]);
      assert Views(menu, lines)[..|lines| - 1] == Views(menu, lines[..|lines| - 1]);
    }
  }

  method PushView(guests: seq<GuestCart>, view: LineView) returns (guests': seq<GuestCart>)
    ensures guests' == WithView(guests, view)
  {
    var at := GuestAt(guests, view.guest);
    var g := if at.None? then GuestCart(view.guest, [], 0) else guests[at.value];
    g := g.(lines := g.lines + [view], subtotal := g.subtotal + view.lineTotal);
    guests' := if at.None? then guests + [g] else guests[at.value := g];
  }

  method GroupViews(menu: Menu, lines: seq<CartLine>) returns (guests: seq<GuestCart>)
    ensures guests == ByGuest(Views(menu, lines))
  {
    guests := [];
    ghost var views := Views(menu, lines);
    for i := 0 to |lines|
      invariant guests == ByGuest(views[..i])
    {
      assert views[..i + 1][..i] == views[..i];
      guests := PushView(guests, View(menu, lines[i]));
    }
    assert views[..|lines|] == views;
  }

  /** The cart per guest and its total, the guests' subtotals added up. */
  method BuildCartView(menu: Menu, lines: seq<CartLine>) returns (guests: seq<GuestCart>, total: int)
    ensures guests == ByGuest(Views(menu, lines))
    ensures total == CartTotal(menu, lines)
  {
    guests := GroupViews(menu, lines);
    CartViewTotal(Views(menu, lines));
    ViewsTotal(menu, lines);
    total := AddSubtotals(guests);
  }

  method AddSubtotals(guests: seq<GuestCart>) returns (total: int)
    ensures total == SumBy(guests, SubtotalOf)
  {
    total := 0;
    for i := 0 to |guests|
      invariant total == SumBy(guests[..i], SubtotalOf)
    {
      assert guests[..i + 1][..i] == guests[..i];
      total := total + guests[i].subtotal;
    }
    assert guests[..|guests|] == guests;
  }

  // ---- A cart and the menu it was filled from ------------------------------------------------------------

  /** Placement would read this line back as exactly the picks it holds. */
  ghost predicate Fits(menu: Menu, l: CartLine) {
    l.CartCombo? ==>
      var resolved := Resolve(menu, l.combo, Selections(l));
      resolved.Ok? && Again(resolved.value) == Selections(l)
  }

  ghost predicate CartFits(menu: Menu, lines: seq<CartLine>) {
    forall l :: l in lines ==> Fits(menu, l)
  }

  lemma {:induction false} ComboAddedFits(menu: Menu, rows: Rows, guest: Id, combo: Id, quantity: Qty, selections: seq<Selection>)
    requires CartFits(menu, rows.lines) && ComboAdded(menu, rows, guest, combo, quantity, selections).Ok?
    ensures CartFits(menu, ComboAdded(menu, rows, guest, combo, quantity, selections).value.lines)
  {
    var children := Resolve(menu, combo, selections).value;
    ResolveAgain(menu, combo, selections);
    assert Fits(menu, NewCombo(rows.next, guest, quantity, combo, children));
  }

  lemma {:induction false} UpdatedFits(menu: Menu, rows: Rows, guest: Id, id: Id, quantity: Option<Qty>, modifiers: Option<Ids>)
    requires CartFits(menu, rows.lines) && Updated(menu, rows, guest, id, quantity, modifiers).Ok?
    ensures CartFits(menu, Updated(menu, rows, guest, id, quantity, modifiers).value.lines)
  {
    var i := LoadOwn(rows.lines, guest, id).value;
    var lines' := Updated(menu, rows, guest, id, quantity, modifiers).value.lines;
    assert rows.lines[i] in rows.lines;
    assert Fits(menu, lines'[i]);
    assert forall l :: l in lines' ==> l in rows.lines || l == lines'[i];
  }

  /** Every change keeps a cart fitting the menu it is made from. */
  lemma {:induction false} ChangeFits(menu: Menu, rows: Rows, guest: Id, sessionActive: bool, op: CartOp)
    requires CartFits(menu, rows.lines)
    requires Change(menu, rows, guest, sessionActive, op).Ok?
    ensures CartFits(menu, Change(menu, rows, guest, sessionActive, op).value.lines)
  {
    match op
    case AddLine(item, variant, quantity, modifiers) =>
    case AddCombo(combo, quantity, selections) => ComboAddedFits(menu, rows, guest, combo, quantity, selections);
    case UpdateLine(line, quantity, modifiers) => UpdatedFits(menu, rows, guest, line, quantity, modifiers);
    case RemoveLine(line) =>
      var i := LoadOwn(rows.lines, guest, line).value;
      assert forall l :: l in rows.lines[..i] + rows.lines[i + 1..] ==> l in rows.lines;
  }

  /** One guest's request to the cart. */
  datatype Request = Request(guest: Id, sessionActive: bool, op: CartOp)

  function Fill(menu: Menu, requests: seq<Request>): Rows {
    if |requests| == 0 then Rows([], 0) else
      var rows := Fill(menu, requests[..|requests| - 1]);
      var last := requests[|requests| - 1];
      var done := Change(menu, rows, last.guest, last.sessionActive, last.op);
      if done.Ok? then done.value else rows
  }

  lemma {:induction false} FilledCartFits(menu: Menu, requests: seq<Request>)
    ensures CartFits(menu, Fill(menu, requests).lines)
  {
    if |requests| > 0 {
      var front, last := requests[..|requests| - 1], requests[|requests| - 1];
      FilledCartFits(menu, front);
      if Change(menu, Fill(menu, front), last.guest, last.sessionActive, last.op).Ok? {
        ChangeFits(menu, Fill(menu, front), last.guest, last.sessionActive, last.op);
      }
    }
  }
}
