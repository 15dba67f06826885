/**
 * One order with everything hanging off it - lines, kitchen tickets, its bill and the bill's money
 * rows - and every transaction on it. A transaction returns the new rows or an error; an error leaves
 * the rows as they were.
 */
module Tabs {
  import opened Prelude
  import opened Tax
  import opened Orders
  import opened Kitchen
  import opened Refunds
  import opened Bills
  import opened Payments
  import opened Shares
  import opened Settlement

  datatype OrderState = OrderOpen | Sent | Closed

  datatype Tab = Tab(
    country: Country,
    outlet: Id,
    createdAt: nat,
    state: OrderState,
    lines: seq<Line>,
    next: Id,
    tickets: seq<Ticket>,
    bill: Option<Bill>)

  /** What a transaction reads besides the order: the time, the tenant's settings and its stations. */
  datatype Env = Env(now: nat, reg: Registration, simulator: bool, stations: seq<Station>)

  function NewTab(country: Country, outlet: Id, now: nat): Tab {
    Tab(country, outlet, now, OrderOpen, [], 0, [], None)
  }

  // ---- Order lines -----------------------------------------------------------------------------

  function Add(tab: Tab, item: NewItem, guest: Option<Id>): Result<Tab> {
    if tab.state == Closed then Err(Conflict) else
      var (lines, next) := AddItem(tab.lines, tab.next, item, guest);
      Ok(tab.(lines := lines, next := next))
  }

  /** The kitchen has the line or, for a combo, one of its picks. */
  predicate IsSent(tab: Tab, id: Id) {
    exists x :: x in FamilyIds(tab.lines, id) && Count(tab.tickets, x) > 0
  }

  /** A tender, an active intent or a paid share freezes price reductions. */
  predicate HasMoneyOrPending(b: Bill) {
    |b.tenders| > 0 || (exists i :: i in b.intents && Active(i)) || (exists s :: s in b.shares && s.paid)
  }

  predicate PaymentsTaken(tab: Tab) {
    tab.bill.Some? && HasMoneyOrPending(tab.bill.value)
  }

  /** The line to act on; a voided one is no longer part of the order. */
  function LoadLine(tab: Tab, id: Id): (r: Result<nat>)
    ensures r.Ok? ==> r.value < |tab.lines| && tab.lines[r.value].id == id && !tab.lines[r.value].voided
  {
    if tab.state == Closed then Err(Conflict) else
      var i := IndexOf(tab.lines, id);
      if i.None? || tab.lines[i.value].voided then Err(NotFound) else Ok(i.value)
  }

  function ModifiersTotal(modifiers: seq<nat>): int {
    SumBy(modifiers, Price)
  }

  function Update(tab: Tab, id: Id, quantity: Option<Qty>, modifiers: Option<seq<nat>>): Result<Tab> {
    var i :- LoadLine(tab, id);
    var line := tab.lines[i];
    if line.kind.Combo? || line.parent.Some? then Err(ComboLocked)
    else if IsSent(tab, id) then Err(LineSent)
    else if quantity.Some? && quantity.value < line.quantity && PaymentsTaken(tab) then Err(BillHasPayments)
    else if modifiers.Some? && ModifiersTotal(modifiers.value) < ModifiersTotal(line.modifiers) && PaymentsTaken(tab) then Err(BillHasPayments)
    else Ok(tab.(lines := tab.lines[i := Edited(line, quantity, modifiers)]))
  }

  function RemoveLine(tab: Tab, id: Id): Result<Tab> {
    var i :- LoadLine(tab, id);
    if tab.lines[i].parent.Some? then Err(ComboLocked)
    else if IsSent(tab, id) then Err(LineSent)
    else if PaymentsTaken(tab) then Err(BillHasPayments)
    else Ok(tab.(lines := Remove(tab.lines, id)))
  }

  function VoidLine(tab: Tab, id: Id, approved: bool): Result<Tab> {
    var i :- LoadLine(tab, id);
    if tab.lines[i].parent.Some? then Err(ComboLocked)
    else if !IsSent(tab, id) then Err(LineNotSent)
    else if PaymentsTaken(tab) then Err(BillHasPayments)
    else if !approved then Err(Forbidden)
    else
      var ids := FamilyIds(tab.lines, id);
      Ok(tab.(lines := Void(tab.lines, ids), tickets := VoidTickets(tab.tickets, ids)))
  }

  // ---- Order state --------------------------------------------------------------------------------

  function Fired(tab: Tab, env: Env): seq<Ticket> {
    FireOnSend(tab.lines, tab.tickets, RouteOf(env.stations, tab.outlet), env.now)
  }

  /** Send to kitchen: open to sent, or the next add-ons of a sent order. */
  function Send(tab: Tab, env: Env): Result<Tab> {
    if tab.state == Closed then Err(InvalidTransition)
    else if tab.state == Sent && |Unfired(tab.lines, tab.tickets)| == 0 then Err(InvalidTransition)
    else Ok(tab.(state := Sent, tickets := Fired(tab, env)))
  }

  /** Throws away an order with nothing on it and no money on its bill. */
  function Discard(tab: Tab): Result<Tab> {
    if tab.state == Closed then Err(Conflict)
    else if exists l :: l in tab.lines && !l.voided then Err(OrderNotEmpty)
    else if tab.bill.Some? && (tab.bill.value.status != Open || |tab.bill.value.tenders| + |tab.bill.value.intents| + |tab.bill.value.shares| > 0) then Err(HasPayments)
    else Ok(tab.(bill := None, state := Closed))
  }

  // ---- Bills ----------------------------------------------------------------------------------------

  function Refreshed(tab: Tab, env: Env, b: Bill): Bill {
    Refresh(tab.country, env.reg, Subtotal(tab.lines), b)
  }

  /** At most one bill per order: a second call returns the first bill, refreshed. */
  function CreateBill(tab: Tab, env: Env): Result<Tab> {
    if tab.bill.Some? then Ok(tab.(bill := Some(Refreshed(tab, env, tab.bill.value))))
    else if tab.state == Closed then Err(Conflict)
    else Ok(tab.(bill := Some(NewBill(tab.country, env.reg, Subtotal(tab.lines)))))
  }

  function ReadBill(tab: Tab, env: Env): Result<Tab> {
    if tab.bill.None? then Err(NotFound) else Ok(tab.(bill := Some(Refreshed(tab, env, tab.bill.value))))
  }

  /** A guest's read of a bill: refreshed, and its shares synced while it is open. */
  function GuestRead(tab: Tab, env: Env): Result<Tab> {
    if tab.bill.None? then Err(NotFound) else
      var b := Refreshed(tab, env, tab.bill.value);
      if b.status != Open then Ok(tab.(bill := Some(b))) else
        var shares :- Sync(tab.lines, Total(b), b.shares);
        Ok(tab.(bill := Some(b.(shares := shares))))
  }

  function GuestCreate(tab: Tab, env: Env, sessionActive: bool): Result<Tab> {
    if !sessionActive then Err(SessionClosed) else
      var tab' :- CreateBill(tab, env);
      GuestRead(tab', env)
  }

  /** The settled bill's order is closed, and whatever the kitchen lacked is fired. */
  function CloseWith(tab: Tab, env: Env, b: Bill): Tab {
    tab.(bill := Some(b), tickets := Fired(tab, env), state := Closed)
  }

  function Finalize(tab: Tab, env: Env, request: FinalizeRequest, number: nat): Result<Tab> {
    if tab.bill.None? then Err(NotFound) else
      var b :- StaffFinalize(tab.country, env.reg, env.simulator, env.now, Refreshed(tab, env, tab.bill.value), request, number);
      Ok(CloseWith(tab, env, b))
  }

  /** The open, refreshed and synced bill a guest payment starts from. */
  function GuestPayable(tab: Tab, env: Env, sessionActive: bool): (r: Result<Bill>)
    ensures r.Ok? ==> r.value.status == Open
  {
    if !env.simulator then Err(ProviderUnavailable)
    else if tab.bill.None? then Err(NotFound)
    else
      var b := Refreshed(tab, env, tab.bill.value);
      if b.status == Finalized then Err(AlreadyFinalized)
      else if !sessionActive then Err(SessionClosed)
      else
        var shares :- Sync(tab.lines, Total(b), b.shares);
        Ok(b.(shares := shares))
  }

  /** Finalise with no discount and no staff, as every share is paid. */
  function Complete(tab: Tab, env: Env, b: Bill, number: nat): Result<Tab> {
    var settled :- Commit(tab.country, env.reg, env.simulator, env.now, b, None, number);
    Ok(CloseWith(tab, env, settled))
  }

  /** The bill once share i is paid by a manual UPI tender. */
  function WithSharePaid(b: Bill, i: nat): Bill
    requires i < |b.shares|
  {
    b.(tenders := b.tenders + [Tender(UpiManual, b.shares[i].amount, None, None)],
       shares := b.shares[i := b.shares[i].(paid := true, tender := Some(|b.tenders|))])
  }

  function PayShare(tab: Tab, env: Env, guest: Id, success: bool, sessionActive: bool, number: nat): Result<Tab> {
    var b :- GuestPayable(tab, env, sessionActive);
    var i := IndexOfGuest(b.shares, guest);
    if i.None? then Err(NotFound)
    else if b.shares[i.value].paid then Err(ShareAlreadyPaid)
    else if !success then Ok(tab.(bill := Some(b)))
    else
      var b' := WithSharePaid(b, i.value);
      if Outstanding(b'.shares) == 0 then Complete(tab, env, b', number) else Ok(tab.(bill := Some(b')))
  }

  /** One intent raised and confirmed on the kiosk's own reader, in this transaction. */
  function KioskCard(b: Bill, env: Env): Result<Bill> {
    if exists i :: i in b.intents && Active(i) then Err(UniqueViolation)
    else Confirm(AppendIntent(b, Intent(CardTerminal, Simulated, Total(b), Pending, NoReason, env.now + 60_000)), |b.intents|, env.simulator)
  }

  function PayAll(tab: Tab, env: Env, kiosk: bool, success: bool, sessionActive: bool, number: nat): Result<Tab> {
    var b :- GuestPayable(tab, env, sessionActive);
    if exists s :: s in b.shares && s.paid then Err(PartialPaymentExists)
    else if !success then Ok(tab.(bill := Some(b)))
    else
      var b' :- if kiosk then KioskCard(b, env) else Ok(b.(tenders := b.tenders + [Tender(UpiManual, Total(b), None, None)]));
      Complete(tab, env, b'.(shares := MarkAllPaid(b'.shares, |b.tenders|)), number)
  }

  function RefundBill(tab: Tab, request: Option<seq<Target>>, approved: bool): Result<Tab> {
    if tab.bill.None? then Err(NotFound)
    else if tab.bill.value.status != Finalized then Err(BillNotFinalized)
    else
      var b := tab.bill.value;
      var note :- Refund(tab.lines, FiguresOf(b), b.notes, request);
      if !approved then Err(Forbidden) else Ok(tab.(bill := Some(b.(notes := b.notes + [note]))))
  }

  // ---- Intents and tickets -----------------------------------------------------------------------------

  function OnBill(tab: Tab, r: Result<Bill>): Result<Tab> {
    var b :- r;
    Ok(tab.(bill := Some(b)))
  }

  function RaiseIntent(tab: Tab, env: Env, amount: Qty, terminal: bool): Result<Tab> {
    if tab.bill.None? then Err(NotFound)
    else OnBill(tab, CreateIntent(Refreshed(tab, env, tab.bill.value), amount, env.now, env.simulator, terminal))
  }

  datatype IntentAction = ConfirmIntent | FailIntent | ExpireIntent | CancelIntent

  function IntentBill(b: Bill, env: Env, i: nat, action: IntentAction): Result<Bill> {
    match action
    case ConfirmIntent => Confirm(b, i, env.simulator)
    case FailIntent => Fail(b, i)
    case ExpireIntent => ExpireIfDue(b, i, env.now)
    case CancelIntent => Cancel(b, i, env.now)
  }

  function IntentStep(tab: Tab, env: Env, i: nat, action: IntentAction): Result<Tab> {
    if tab.bill.None? then Err(NotFound) else OnBill(tab, IntentBill(tab.bill.value, env, i, action))
  }

  function TicketStep(tab: Tab, env: Env, i: nat, action: TicketAction): Result<Tab> {
    if i >= |tab.tickets| then Err(NotFound) else
      var t :- Act(tab.tickets[i], action, env.now);
      Ok(tab.(tickets := tab.tickets[i := t]))
  }

  // ---- All transactions ----------------------------------------------------------------------------------

  datatype Op =
    | OpAdd(item: NewItem)
    | OpUpdate(line: Id, quantity: Option<Qty>, modifiers: Option<seq<nat>>)
    | OpRemove(line: Id)
    | OpVoid(line: Id, approved: bool)
    | OpSend
    | OpDiscard
    | OpCreateBill
    | OpReadBill
    | OpGuestCreate(sessionActive: bool)
    | OpGuestRead
    | OpFinalize(request: FinalizeRequest)
    | OpPayShare(guest: Id, success: bool, sessionActive: bool)
    | OpPayAll(kiosk: bool, success: bool, sessionActive: bool)
    | OpRefund(targets: Option<seq<Target>>, approved: bool)
    | OpRaiseIntent(amount: Qty, terminal: bool)
    | OpIntent(intent: nat, intentAction: IntentAction)
    | OpTicket(ticket: nat, ticketAction: TicketAction)

  function Apply(tab: Tab, op: Op, env: Env, number: nat): Result<Tab> {
    match op
    case OpAdd(item) => Add(tab, item, None)
    case OpUpdate(line, quantity, modifiers) => Update(tab, line, quantity, modifiers)
    case OpRemove(line) => RemoveLine(tab, line)
    case OpVoid(line, approved) => VoidLine(tab, line, approved)
    case OpSend => Send(tab, env)
    case OpDiscard => Discard(tab)
    case OpCreateBill => CreateBill(tab, env)
    case OpReadBill => ReadBill(tab, env)
    case OpGuestCreate(sessionActive) => GuestCreate(tab, env, sessionActive)
    case OpGuestRead => GuestRead(tab, env)
    case OpFinalize(request) => Finalize(tab, env, request, number)
    case OpPayShare(guest, success, sessionActive) => PayShare(tab, env, guest, success, sessionActive, number)
    case OpPayAll(kiosk, success, sessionActive) => PayAll(tab, env, kiosk, success, sessionActive, number)
    case OpRefund(targets, approved) => RefundBill(tab, targets, approved)
    case OpRaiseIntent(amount, terminal) => RaiseIntent(tab, env, amount, terminal)
    case OpIntent(intent, intentAction) => IntentStep(tab, env, intent, intentAction)
    case OpTicket(ticket, ticketAction) => TicketStep(tab, env, ticket, ticketAction)
  }

  /** A guest's cart becomes an order that is sent at once. */
  datatype Placement = Placement(item: NewItem, guest: Option<Id>)

  function PlaceItems(tab: Tab, items: seq<Placement>): Tab {
    if |items| == 0 then tab else
      var front := PlaceItems(tab, items[..|items| - 1]);
      var last := items[|items| - 1];
      var (lines, next) := AddItem(front.lines, front.next, last.item, last.guest);
      front.(lines := lines, next := next)
  }

  function Place(country: Country, outlet: Id, env: Env, items: seq<Placement>): Tab {
    var tab := PlaceItems(NewTab(country, outlet, env.now), items);
    tab.(state := Sent, tickets := Fired(tab, env))
  }
}
