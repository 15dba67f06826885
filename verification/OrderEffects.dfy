/** What each order transaction does to the rows, and exactly when it is refused. */
module OrderEffects {
  import opened Prelude
  import opened Tax
  import opened Orders
  import opened Kitchen
  import opened Bills
  import opened Payments
  import opened Shares
  import opened ShareAmounts
  import opened Tabs
  import opened TabInvariant

  // ---- What a line costs ---------------------------------------------------------------------------

  /** A line costs its price without modifiers, and each modifier adds its own price to every unit. */
  lemma {:induction false} UnitAddsModifiers(l: Line, p: nat)
    ensures l.modifiers == [] ==> Unit(l) == l.unitPrice
    ensures Unit(l.(modifiers := l.modifiers + [p])) == Unit(l) + p
    ensures LineTotal(l) == l.quantity * Unit(l)
    ensures Billed(l) == if l.voided then 0 else LineTotal(l)
  {
    SumBySnoc(l.modifiers, p, Price);
  }

  // ---- The line an order transaction acts on -----------------------------------------------------------

  /** The order still takes changes and the line is one of its unvoided top lines. */
  ghost predicate IsOpenTop(tab: Tab, i: nat, id: Id) {
    tab.state != Closed && i < |tab.lines| && tab.lines[i].id == id && !tab.lines[i].voided && tab.lines[i].parent.None?
  }

  ghost predicate OpenTop(tab: Tab, id: Id) {
    exists i: nat :: IsOpenTop(tab, i, id)
  }

  /** The line itself and, for a combo, its picks. */
  ghost predicate InFamilyOf(l: Line, id: Id) {
    l.id == id || l.parent == Some(id)
  }

  /** A ticket line exists for the line or one of its picks. */
  ghost predicate InKitchen(tab: Tab, id: Id) {
    exists l :: l in tab.lines && InFamilyOf(l, id) && Count(tab.tickets, l.id) > 0
  }

  /** A tender, a created or pending intent, or a paid share is on the bill. */
  ghost predicate MoneyOn(tab: Tab) {
    tab.bill.Some? &&
      var b := tab.bill.value;
      || b.tenders != []
      || (exists i :: i in b.intents && (i.status == Created || i.status == Pending))
      || (exists s :: s in b.shares && s.paid)
  }

  lemma {:induction false} MoneyOnIff(tab: Tab)
    ensures PaymentsTaken(tab) <==> MoneyOn(tab)
  {
    if PaymentsTaken(tab) && exists i :: i in tab.bill.value.intents && Active(i) {
      var i :| i in tab.bill.value.intents && Active(i);
      assert i.status == Created || i.status == Pending;
    }
    if MoneyOn(tab) && exists i :: i in tab.bill.value.intents && (i.status == Created || i.status == Pending) {
      var i :| i in tab.bill.value.intents && (i.status == Created || i.status == Pending);
      assert Active(i);
    }
  }

  lemma {:induction false} InKitchenIff(tab: Tab, id: Id)
    requires Distinct(tab.lines)
    ensures IsSent(tab, id) <==> InKitchen(tab, id)
  {
    if IsSent(tab, id) {
      var x :| x in FamilyIds(tab.lines, id) && Count(tab.tickets, x) > 0;
      var l :| l in tab.lines && (l.id == id || l.parent == Some(id)) && l.id == x;
    }
    if InKitchen(tab, id) {
      var l :| l in tab.lines && InFamilyOf(l, id) && Count(tab.tickets, l.id) > 0;
      assert l.id in FamilyIds(tab.lines, id);
    }
  }

  lemma {:induction false} FamilyIff(lines: seq<Line>, id: Id, l: Line)
    requires Distinct(lines) && l in lines
    ensures l.id in FamilyIds(lines, id) <==> InFamilyOf(l, id)
  {
    if l.id in FamilyIds(lines, id) {
      var m :| m in lines && (m.id == id || m.parent == Some(id)) && m.id == l.id;
      SameId(lines, l, m);
    }
  }

  lemma {:induction false} LoadLineIff(tab: Tab, id: Id)
    requires Distinct(tab.lines)
    ensures LoadLine(tab, id).Ok? <==> tab.state != Closed && exists l :: l in tab.lines && l.id == id && !l.voided
    ensures LoadLine(tab, id).Ok? && tab.lines[LoadLine(tab, id).value].parent.None? <==> OpenTop(tab, id)
    ensures LoadLine(tab, id).Ok? ==> forall k :: 0 <= k < |tab.lines| && tab.lines[k].id == id ==> k == LoadLine(tab, id).value
  {
    var i := IndexOf(tab.lines, id);
    if i.Some? {
      assert tab.lines[i.value] in tab.lines;
      forall l | l in tab.lines && l.id == id
        ensures l == tab.lines[i.value]
      {
        SameId(tab.lines, l, tab.lines[i.value]);
      }
      assert IsOpenTop(tab, i.value, id) <==> LoadLine(tab, id).Ok? && tab.lines[i.value].parent.None?;
    }
    forall k | 0 <= k < |tab.lines| && tab.lines[k].id == id
      ensures tab.lines[k] in tab.lines && i.Some? && tab.lines[k] == tab.lines[i.value]
    {
      assert tab.lines[k] in tab.lines;
    }
  }

  // ---- Voiding -----------------------------------------------------------------------------------------

  function BilledIn(id: Id): Line -> int {
    (l: Line) => if l.id == id || l.parent == Some(id) then Billed(l) else 0
  }

  /** Every line of the family is voided and every other line stands as it did. */
  ghost predicate Voids(lines: seq<Line>, lines': seq<Line>, id: Id) {
    && |lines'| == |lines|
    && forall k :: 0 <= k < |lines| ==> lines'[k] == if InFamilyOf(lines[k], id) then lines[k].(voided := true) else lines[k]
  }

  ghost predicate OfFamily(lines: seq<Line>, id: Id, lineId: Id) {
    exists l :: l in lines && InFamilyOf(l, id) && l.id == lineId
  }

  /** The family's ticket lines are struck through and nothing else on any ticket changed. */
  ghost predicate Strikes(lines: seq<Line>, tickets: seq<Ticket>, tickets': seq<Ticket>, id: Id) {
    && |tickets'| == |tickets|
    && forall t :: 0 <= t < |tickets| ==>
      && tickets'[t] == tickets[t].(lines := tickets'[t].lines)
      && |tickets'[t].lines| == |tickets[t].lines|
      && forall k :: 0 <= k < |tickets[t].lines| ==>
        tickets'[t].lines[k] == if OfFamily(lines, id, tickets[t].lines[k].lineId) then tickets[t].lines[k].(voided := true) else tickets[t].lines[k]
  }

  lemma {:induction false} VoidVoids(lines: seq<Line>, id: Id)
    requires Distinct(lines)
    ensures Voids(lines, Void(lines, FamilyIds(lines, id)), id)
  {
    forall k | 0 <= k < |lines|
      ensures lines[k].id in FamilyIds(lines, id) <==> InFamilyOf(lines[k], id)
    {
      assert lines[k] in lines;
      FamilyIff(lines, id, lines[k]);
    }
  }

  lemma {:induction false} VoidStrikes(lines: seq<Line>, tickets: seq<Ticket>, id: Id)
    ensures Strikes(lines, tickets, VoidTickets(tickets, FamilyIds(lines, id)), id)
  {
    forall lineId
      ensures lineId in FamilyIds(lines, id) <==> OfFamily(lines, id, lineId)
    {
      if OfFamily(lines, id, lineId) {
        var l :| l in lines && InFamilyOf(l, id) && l.id == lineId;
      }
    }
  }

  lemma {:induction false} VoidsSubtotal(lines: seq<Line>, lines': seq<Line>, id: Id)
    requires Voids(lines, lines', id)
    ensures Subtotal(lines') == Subtotal(lines) - SumBy(lines, BilledIn(id))
  {
    if |lines| > 0 {
      var n := |lines| - 1;
      VoidsSubtotal(lines[..n], lines'[..n], id);
    }
  }

  /** A void is accepted exactly for a sent, unpaid top line with approval; it strikes the line and its picks everywhere and takes exactly their price off. */
  lemma {:induction false} VoidLineExact(tab: Tab, id: Id, approved: bool)
    requires Distinct(tab.lines)
    ensures VoidLine(tab, id, approved).Ok? <==> OpenTop(tab, id) && InKitchen(tab, id) && !MoneyOn(tab) && approved
    ensures VoidLine(tab, id, approved).Ok? ==>
              var tab' := VoidLine(tab, id, approved).value;
              && tab' == tab.(lines := tab'.lines, tickets := tab'.tickets)
              && Voids(tab.lines, tab'.lines, id)
              && Strikes(tab.lines, tab.tickets, tab'.tickets, id)
              && Subtotal(tab'.lines) == Subtotal(tab.lines) - SumBy(tab.lines, BilledIn(id))
  {
    LoadLineIff(tab, id);
    InKitchenIff(tab, id);
    MoneyOnIff(tab);
    if VoidLine(tab, id, approved).Ok? {
      VoidVoids(tab.lines, id);
      VoidStrikes(tab.lines, tab.tickets, id);
      VoidsSubtotal(tab.lines, Void(tab.lines, FamilyIds(tab.lines, id)), id);
    }
  }

  // ---- Editing -------------------------------------------------------------------------------------------

  /** The line gets the quantity and modifiers asked for and keeps everything else; the other lines stand. */
  ghost predicate Edits(lines: seq<Line>, lines': seq<Line>, id: Id, quantity: Option<Qty>, modifiers: Option<seq<nat>>) {
    && |lines'| == |lines|
    && forall k :: 0 <= k < |lines| ==>
      if lines[k].id != id then lines'[k] == lines[k] else
        && lines'[k] == lines[k].(quantity := lines'[k].quantity, modifiers := lines'[k].modifiers)
        && lines'[k].quantity == (if quantity.Some? then quantity.value else lines[k].quantity)
        && lines'[k].modifiers == (if modifiers.Some? then modifiers.value else lines[k].modifiers)
  }

  /** With money on the bill neither the quantity nor the modifiers' price may fall. */
  ghost predicate NoCheaper(l: Line, quantity: Option<Qty>, modifiers: Option<seq<nat>>) {
    && (quantity.Some? ==> l.quantity <= quantity.value)
    && (modifiers.Some? ==> SumBy(l.modifiers, Price) <= SumBy(modifiers.value, Price))
  }

  ghost predicate EditableAt(tab: Tab, i: nat, id: Id, quantity: Option<Qty>, modifiers: Option<seq<nat>>) {
    IsOpenTop(tab, i, id) && tab.lines[i].kind.Item? && (MoneyOn(tab) ==> NoCheaper(tab.lines[i], quantity, modifiers))
  }

  ghost predicate Editable(tab: Tab, id: Id, quantity: Option<Qty>, modifiers: Option<seq<nat>>) {
    exists i: nat :: EditableAt(tab, i, id, quantity, modifiers)
  }

  /** An edit is accepted exactly for an unsent plain line, and not cheaper under payment; it stores exactly what was asked. */
  lemma {:induction false} UpdateExact(tab: Tab, id: Id, quantity: Option<Qty>, modifiers: Option<seq<nat>>)
    requires Distinct(tab.lines)
    ensures Update(tab, id, quantity, modifiers).Ok? <==> Editable(tab, id, quantity, modifiers) && !InKitchen(tab, id)
    ensures Update(tab, id, quantity, modifiers).Ok? ==>
              var tab' := Update(tab, id, quantity, modifiers).value;
              tab' == tab.(lines := tab'.lines) && Edits(tab.lines, tab'.lines, id, quantity, modifiers)
  {
    LoadLineIff(tab, id);
    InKitchenIff(tab, id);
    MoneyOnIff(tab);
    if LoadLine(tab, id).Ok? {
      var i := LoadLine(tab, id).value;
      assert IsOpenTop(tab, i, id) <==> tab.lines[i].parent.None?;
      assert Editable(tab, id, quantity, modifiers) <==> EditableAt(tab, i, id, quantity, modifiers);
    }
  }

  // ---- Adding and removing -----------------------------------------------------------------------------------

  /** The new line or, for a combo, its parent line and one line per pick with its quantity per combo times the combos. */
  ghost predicate Writes(added: seq<Line>, next: Id, item: NewItem, guest: Option<Id>) {
    match item
    case NewLine(station, quantity, price, modifiers) => added == [Line(next, Item(station), None, quantity, price, modifiers, guest, false)]
    case NewCombo(quantity, price, picks) =>
      && |added| == 1 + |picks|
      && added[0] == Line(next, Combo, None, quantity, price, [], guest, false)
      && forall k :: 0 <= k < |picks| ==>
        var l := added[1 + k];
        && l.id == next + 1 + k && l.kind == Item(picks[k].station) && l.parent == Some(next)
        && l.quantity == picks[k].quantity * quantity && l.unitPrice == picks[k].upcharge && l.modifiers == picks[k].modifiers
        && l.guest == guest && !l.voided
  }

  lemma {:induction false} AddItemWrites(lines: seq<Line>, next: Id, item: NewItem, guest: Option<Id>)
    ensures var lines' := AddItem(lines, next, item, guest).0;
            |lines| <= |lines'| && lines'[..|lines|] == lines && Writes(lines'[|lines|..], next, item, guest)
  {
    var lines' := AddItem(lines, next, item, guest).0;
    if item.NewCombo? {
      var parent := Line(next, Combo, None, item.quantity, item.price, [], guest, false);
      var children := PickLines(item.picks, item.quantity, next, guest);
      assert lines'[|lines|..] == [parent] + children;
      if |item.picks| > 0 {
        PickLinesAt(item.picks, item.quantity, next, guest, 0);
      }
      forall k | 0 <= k < |item.picks|
        ensures children[k] == PickLine(item.picks[k], item.quantity, next + 1 + k, next, guest)
      {
        PickLinesAt(item.picks, item.quantity, next, guest, k);
      }
    }
  }

  /** Adding is refused exactly on a closed order; it appends exactly the item's lines and raises the subtotal by its price. */
  lemma {:induction false} AddExact(tab: Tab, item: NewItem, guest: Option<Id>)
    ensures Add(tab, item, guest).Ok? <==> tab.state != Closed
    ensures Add(tab, item, guest).Ok? ==>
              var tab' := Add(tab, item, guest).value;
              && tab' == tab.(lines := tab'.lines, next := tab'.next)
              && |tab.lines| <= |tab'.lines| && tab'.lines[..|tab.lines|] == tab.lines
              && Writes(tab'.lines[|tab.lines|..], tab.next, item, guest)
              && Subtotal(tab'.lines) == Subtotal(tab.lines) + ItemTotal(item)
  {
    AddItemWrites(tab.lines, tab.next, item, guest);
    AddItemTotal(tab.lines, tab.next, item, guest);
  }

  /** A removal is accepted exactly for an unsent, unpaid top line; it takes the line and its picks off, in place, with exactly their price. */
  lemma {:induction false} RemoveLineExact(tab: Tab, id: Id)
    requires Distinct(tab.lines)
    ensures RemoveLine(tab, id).Ok? <==> OpenTop(tab, id) && !InKitchen(tab, id) && !MoneyOn(tab)
    ensures RemoveLine(tab, id).Ok? ==>
              var tab' := RemoveLine(tab, id).value;
              && tab' == tab.(lines := tab'.lines)
              && tab'.lines == Filter(tab.lines, (l: Line) => !(l.id == id || l.parent == Some(id)))
              && Subtotal(tab'.lines) == Subtotal(tab.lines) - SumBy(tab.lines, BilledIn(id))
  {
    LoadLineIff(tab, id);
    InKitchenIff(tab, id);
    MoneyOnIff(tab);
    if RemoveLine(tab, id).Ok? {
      SameFilter(tab.lines, Outside(id), (l: Line) => !(l.id == id || l.parent == Some(id)));
      RemovedSubtotal(tab.lines, id);
    }
  }

  lemma {:induction false} SameFilter(lines: seq<Line>, p: Line -> bool, q: Line -> bool)
    requires forall l :: p(l) <==> q(l)
    ensures Filter(lines, p) == Filter(lines, q)
  {
    if |lines| > 0 {
      SameFilter(lines[..|lines| - 1], p, q);
    }
  }

  lemma {:induction false} RemovedSubtotal(lines: seq<Line>, id: Id)
    ensures Subtotal(Remove(lines, id)) == Subtotal(lines) - SumBy(lines, BilledIn(id))
  {
    if |lines| > 0 {
      var front, last := lines[..|lines| - 1], lines[|lines| - 1];
      RemovedSubtotal(front, id);
      SumBySnoc(Remove(front, id), last, Billed);
    }
  }

  // ---- Sending and discarding --------------------------------------------------------------------------------

  ghost predicate HasUnfired(tab: Tab) {
    exists l :: l in tab.lines && !l.voided && l.kind.Item? && Count(tab.tickets, l.id) == 0
  }

  lemma {:induction false} HasUnfiredIff(tab: Tab)
    ensures |Unfired(tab.lines, tab.tickets)| > 0 <==> HasUnfired(tab)
  {
    var unfired := Unfired(tab.lines, tab.tickets);
    if |unfired| > 0 {
      assert unfired[0] in unfired;
      FilterMember(tab.lines, NeedsFiring(tab.tickets), unfired[0]);
    }
    if HasUnfired(tab) {
      var l :| l in tab.lines && !l.voided && l.kind.Item? && Count(tab.tickets, l.id) == 0;
      FilterMember(tab.lines, NeedsFiring(tab.tickets), l);
    }
  }

  /** A send is accepted exactly on an open order, or a sent one with something the kitchen lacks; every billed item is then in the kitchen. */
  lemma {:induction false} SendExact(tab: Tab, env: Env, clock: nat)
    requires TabOk(tab, clock) && clock <= env.now
    ensures Send(tab, env).Ok? <==> tab.state == OrderOpen || (tab.state == Sent && HasUnfired(tab))
    ensures Send(tab, env).Ok? ==>
              var tab' := Send(tab, env).value;
              && tab' == tab.(state := Sent, tickets := tab'.tickets)
              && AllSent(tab'.lines, tab'.tickets)
  {
    HasUnfiredIff(tab);
    FiredOk(tab, env, clock);
  }

  /** An order is thrown away exactly when nothing on it is billed and its bill is open without tenders, intents or shares. */
  lemma {:induction false} DiscardExact(tab: Tab)
    ensures Discard(tab).Ok? <==>
              && tab.state != Closed
              && (forall l :: l in tab.lines ==> l.voided)
              && (tab.bill.Some? ==> tab.bill.value.status == Open && tab.bill.value.tenders == [] && tab.bill.value.intents == [] && tab.bill.value.shares == [])
    ensures Discard(tab).Ok? ==> Discard(tab).value == tab.(bill := None, state := Closed)
  {
  }

  // ---- Bills ---------------------------------------------------------------------------------------------------

  /** The stored amounts are the ones of the order's lines under the registration in force. */
  ghost predicate Current(tab: Tab, env: Env, b: Bill) {
    && b.subtotal == Subtotal(tab.lines)
    && b.tax == ComputeTax(tab.country, env.reg, Subtotal(tab.lines)).tax
    && Total(b) == TotalFor(tab.country, env.reg, Subtotal(tab.lines))
  }

  ghost predicate SameMoney(b: Bill, b': Bill) {
    b'.tenders == b.tenders && b'.intents == b.intents && b'.notes == b.notes && b'.status == b.status && b'.number == b.number && b'.discount == b.discount && b'.roundOff == b.roundOff
  }

  lemma {:induction false} RefreshedCurrent(tab: Tab, env: Env)
    requires tab.bill.Some? && BillOk(tab.country, tab.bill.value)
    ensures var b := Refreshed(tab, env, tab.bill.value);
            && SameMoney(tab.bill.value, b) && b.shares == tab.bill.value.shares
            && (b.status == Open ==> Current(tab, env, b))
            && (b.status == Finalized ==> b == tab.bill.value)
  {
    if tab.bill.value.status == Open {
      RefreshTotal(tab.country, env.reg, Subtotal(tab.lines), tab.bill.value);
      RefreshTotalIff(tab.country, env.reg, Subtotal(tab.lines), tab.bill.value);
    }
  }

  /** One bill per order: a second call returns the first one; an open one is brought up to date, a settled one is left alone. */
  lemma {:induction false} CreateBillExact(tab: Tab, env: Env)
    requires tab.bill.Some? ==> BillOk(tab.country, tab.bill.value)
    ensures CreateBill(tab, env).Ok? <==> tab.bill.Some? || tab.state != Closed
    ensures CreateBill(tab, env).Ok? ==>
              var tab' := CreateBill(tab, env).value;
              && tab' == tab.(bill := tab'.bill) && tab'.bill.Some?
              && var b' := tab'.bill.value;
              && (b'.status == Open ==> Current(tab, env, b'))
              && (tab.bill.None? ==> b'.status == Open && b'.tenders == [] && b'.intents == [] && b'.shares == [] && b'.notes == [] && b'.number == None && b'.discount == None && b'.roundOff == None)
              && (tab.bill.Some? ==> SameMoney(tab.bill.value, b') && b'.shares == tab.bill.value.shares)
              && (tab.bill.Some? && tab.bill.value.status == Finalized ==> tab' == tab)
  {
    if tab.bill.Some? {
      RefreshedCurrent(tab, env);
    }
  }

  /** The shares are cut from the bill's total as its lines stand. */
  ghost predicate Shared(lines: seq<Line>, total: int, shares: seq<Share>, synced: seq<Share>, due: int) {
    && SumBy(synced, ShareAmount) == total
    && Extends(shares, synced, Guests(lines))
    && CutByOrder(lines, synced, due)
  }

  lemma {:induction false} SyncedIsShared(lines: seq<Line>, total: int, shares: seq<Share>, synced: seq<Share>, due: int)
    requires SharesOk(shares) && Sync(lines, total, shares) == Ok(synced) && due == total - Paid(shares)
    ensures Shared(lines, total, shares, synced, due)
  {
    SyncExact(lines, total, shares);
    SyncCutsByOrder(lines, total, shares, synced, due);
  }

  /** A guest's read of an open bill brings it up to date and cuts its total across the guests; a settled one is left alone. */
  lemma {:induction false} GuestReadExact(tab: Tab, env: Env, due: int)
    requires tab.bill.Some? && BillOk(tab.country, tab.bill.value) && GuestRead(tab, env).Ok?
    requires due == TotalFor(tab.country, env.reg, Subtotal(tab.lines)) - Paid(tab.bill.value.shares)
    ensures var tab' := GuestRead(tab, env).value;
            && tab' == tab.(bill := tab'.bill) && tab'.bill.Some?
            && var b, b' := tab.bill.value, tab'.bill.value;
            && SameMoney(b, b')
            && (b.status == Finalized ==> tab' == tab)
            && (b.status == Open ==> Current(tab, env, b') && Shared(tab.lines, Total(b'), b.shares, b'.shares, due))
  {
    RefreshedCurrent(tab, env);
    var b := Refreshed(tab, env, tab.bill.value);
    if b.status == Open {
      SyncedIsShared(tab.lines, Total(b), b.shares, Sync(tab.lines, Total(b), b.shares).value, due);
    }
  }

  // ---- Raising an intent ----------------------------------------------------------------------------------------

  ghost predicate StillWaiting(b: Bill, now: nat) {
    exists i :: i in b.intents && (i.status == Created || i.status == Pending) && i.expiresAt > now
  }

  /** An intent is raised exactly within what is still due, on a terminal, with none still waiting; it is pending for five minutes. */
  lemma {:induction false} CreateIntentExact(b: Bill, amount: Qty, now: nat, simulator: bool, terminal: bool)
    requires BillIntentsOk(b)
    ensures var r := CreateIntent(b, amount, now, simulator, terminal);
            && (r.Ok? <==> simulator && b.status == Open && Tendered(b.tenders) + amount <= Total(b) && !StillWaiting(b, now) && terminal)
            && (r.Ok? ==>
                  && |r.value.intents| == |b.intents| + 1
                  && r.value.intents[|b.intents|] == Intent(CardTerminal, Simulated, amount, Pending, NoReason, now + 300_000)
                  && r.value.tenders == b.tenders)
  {
    CreateIntentOk(b, amount, now, simulator, terminal);
    var active := FirstActive(b.intents);
    if active.Some? {
      assert b.intents[active.value] in b.intents;
      OnlyActive(b, active.value, now);
    }
  }

  lemma {:induction false} OnlyActive(b: Bill, k: nat, now: nat)
    requires BillIntentsOk(b) && k < |b.intents| && Active(b.intents[k])
    ensures StillWaiting(b, now) <==> b.intents[k].expiresAt > now
  {
    assert b.intents[k] in b.intents;
    if StillWaiting(b, now) {
      var x :| x in b.intents && (x.status == Created || x.status == Pending) && x.expiresAt > now;
      var j :| 0 <= j < |b.intents| && b.intents[j] == x;
    }
  }

  // ---- Ticket actions ---------------------------------------------------------------------------------------------

  /** A bump needs a queued ticket, a recall one bumped at most twelve hours ago; each logs its own event and nothing else of the ticket changes. */
  lemma {:induction false} ActExact(t: Ticket, action: TicketAction, now: nat)
    ensures Act(t, action, now).Ok? <==>
              match action
              case Bump => t.status == Queued
              case Recall => t.status == Bumped && (t.bumpedAt.Some? ==> now - t.bumpedAt.value <= 43_200_000)
              case Refire => true
    ensures Act(t, action, now).Ok? ==>
              var t' := Act(t, action, now).value;
              && t' == t.(status := t'.status, recallCount := t'.recallCount, bumpedAt := t'.bumpedAt, events := t'.events)
              && (action == Bump ==> t'.status == Bumped && t'.bumpedAt == Some(now) && t'.recallCount == t.recallCount && t'.events == t.events + [BumpedEvent])
              && (action == Recall ==> t'.status == Queued && t'.bumpedAt == t.bumpedAt && t'.recallCount == t.recallCount + 1 && t'.events == t.events + [RecalledEvent])
              && (action == Refire ==> t'.status == Queued && t'.bumpedAt == None && t'.recallCount == t.recallCount && t'.events == t.events + [RefiredEvent])
  {
  }

  // ---- Placing, reading, raising ------------------------------------------------------------------------------------

  /** A placed order's lines are its items' lines in order, each for the guest who asked for it. */
  lemma {:induction false} PlaceAppends(tab: Tab, items: seq<Placement>, p: Placement)
    ensures var before, after := PlaceItems(tab, items), PlaceItems(tab, items + [p]);
            && |before.lines| <= |after.lines| && after.lines[..|before.lines|] == before.lines
            && Writes(after.lines[|before.lines|..], before.next, p.item, p.guest)
            && after == before.(lines := after.lines, next := after.next)
  {
    assert (items + [p])[..|items|] == items;
    AddItemWrites(PlaceItems(tab, items).lines, PlaceItems(tab, items).next, p.item, p.guest);
  }

  /** A read brings an open bill up to date and changes nothing else. */
  lemma {:induction false} ReadBillExact(tab: Tab, env: Env)
    requires tab.bill.Some? ==> BillOk(tab.country, tab.bill.value)
    ensures ReadBill(tab, env).Ok? <==> tab.bill.Some?
    ensures ReadBill(tab, env).Ok? ==>
              var tab' := ReadBill(tab, env).value;
              && tab' == tab.(bill := tab'.bill) && tab'.bill.Some?
              && SameMoney(tab.bill.value, tab'.bill.value) && tab'.bill.value.shares == tab.bill.value.shares
              && (tab.bill.value.status == Open ==> Current(tab, env, tab'.bill.value))
              && (tab.bill.value.status == Finalized ==> tab' == tab)
  {
    if tab.bill.Some? {
      RefreshedCurrent(tab, env);
    }
  }

  /** A guest gets the order's one bill, created if there is none, exactly while the session is active and its total can be cut. */
  lemma {:induction false} GuestCreateExact(tab: Tab, env: Env, sessionActive: bool)
    ensures GuestCreate(tab, env, sessionActive).Ok? ==> sessionActive && CreateBill(tab, env).Ok?
    ensures sessionActive && CreateBill(tab, env).Ok? ==> GuestCreate(tab, env, sessionActive) == GuestRead(CreateBill(tab, env).value, env)
  {
  }

  /** Staff raise an intent within what is due of the total as the lines stand now. */
  lemma {:induction false} RaiseIntentExact(tab: Tab, env: Env, amount: Qty, terminal: bool)
    requires tab.bill.Some? && BillOk(tab.country, tab.bill.value)
    ensures var r := RaiseIntent(tab, env, amount, terminal);
            var b := tab.bill.value;
            && (r.Ok? <==> env.simulator && b.status == Open && Tendered(b.tenders) + amount <= TotalFor(tab.country, env.reg, Subtotal(tab.lines)) && !StillWaiting(b, env.now) && terminal)
            && (r.Ok? ==>
                  && r.value == tab.(bill := r.value.bill) && r.value.bill.Some?
                  && r.value.bill.value.tenders == b.tenders && |r.value.bill.value.intents| == |b.intents| + 1
                  && r.value.bill.value.intents[|b.intents|].amount == amount)
  {
    RefreshedCurrent(tab, env);
    RefreshedOk(tab.country, env.reg, Subtotal(tab.lines), tab.bill.value);
    CreateIntentExact(Refreshed(tab, env, tab.bill.value), amount, env.now, env.simulator, terminal);
  }
}
