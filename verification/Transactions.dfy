/** The services' transactions step by step, each proved to write exactly the rows its specification in Tabs describes. */
module Transactions {
  import opened Prelude
  import opened Tax
  import opened Orders
  import opened Kitchen
  import opened Refunds
  import opened RefundService
  import opened Bills
  import opened Payments
  import opened Shares
  import opened Settlement
  import opened Tabs

  /** computeSubtotal: the billed lines' unit price plus modifiers, times quantity. */
  method ComputeSubtotal(lines: seq<Line>) returns (subtotal: nat)
    ensures subtotal == Subtotal(lines)
  {
    subtotal := 0;
    for i := 0 to |lines|
      invariant subtotal == Subtotal(lines[..i])
    {
      assert lines[..i + 1][..i] == lines[..i];
      if !lines[i].voided {
        var modifiersTotal := 0;
        for j := 0 to |lines[i].modifiers|
          invariant modifiersTotal == SumBy(lines[i].modifiers[..j], Price)
        {
          assert lines[i].modifiers[..j + 1][..j] == lines[i].modifiers[..j];
          modifiersTotal := modifiersTotal + lines[i].modifiers[j];
        }
        assert lines[i].modifiers[..|lines[i].modifiers|] == lines[i].modifiers;
        subtotal := subtotal + lines[i].quantity * (lines[i].unitPrice + modifiersTotal);
      }
    }
    assert lines[..|lines|] == lines;
  }

  /** refreshOpenBillTotals: re-derive an open bill's stored amounts unless nothing moved. */
  method RefreshOpenBill(tab: Tab, env: Env, b: Bill) returns (r: Bill)
    ensures r == Refreshed(tab, env, b)
  {
    if b.status != Open {
      return b;
    }
    var subtotal := ComputeSubtotal(tab.lines);
    var tax := ComputeTax(tab.country, env.reg, subtotal);
    TaxNonNegative(tab.country, env.reg, subtotal);
    if subtotal == b.subtotal && tax.tax == b.tax && tax.split == b.split {
      return b;
    }
    r := b.(subtotal := subtotal, tax := tax.tax, split := tax.split, inclusive := tax.inclusive);
  }

  /** addLine / addCombo: the line, then one line per pick. */
  method InsertLines(lines: seq<Line>, next: Id, item: NewItem, guest: Option<Id>) returns (lines': seq<Line>, next': Id)
    ensures (lines', next') == AddItem(lines, next, item, guest)
  {
    match item
    case NewLine(station, quantity, price, modifiers) =>
      lines' := lines + [Line(next, Item(station), None, quantity, price, modifiers, guest, false)];
      next' := next + 1;
    case NewCombo(quantity, price, picks) =>
      var parent := Line(next, Combo, None, quantity, price, [], guest, false);
      var children: seq<Line> := [];
      for i := 0 to |picks|
        invariant children == PickLines(picks[..i], quantity, next, guest)
      {
        assert picks[..i + 1][..i] == picks[..i];
        children := children + [PickLine(picks[i], quantity, next + 1 + i, next, guest)];
      }
      assert picks[..|picks|] == picks;
      lines' := lines + [parent] + children;
      next' := next + 1 + |picks|;
  }

  method PlaceCart(country: Country, outlet: Id, env: Env, items: seq<Placement>) returns (tab: Tab)
    ensures tab == Place(country, outlet, env, items)
  {
    tab := NewTab(country, outlet, env.now);
    ghost var empty := tab;
    for i := 0 to |items|
      invariant tab == PlaceItems(empty, items[..i])
    {
      assert items[..i + 1][..i] == items[..i];
      var lines, next := InsertLines(tab.lines, tab.next, items[i].item, items[i].guest);
      tab := tab.(lines := lines, next := next);
    }
    assert items[..|items|] == items;
    ghost var placed := tab;
    var fired, count := Fire(tab.lines, tab.tickets, env.stations, tab.outlet, env.now);
    tab := tab.(state := Sent, tickets := fired);
    assert fired == Fired(placed, env) && placed.outlet == tab.outlet;
  }

  method SendToKitchen(tab: Tab, env: Env) returns (r: Result<Tab>)
    ensures r == Send(tab, env)
  {
    if tab.state == Closed {
      return Err(InvalidTransition);
    }
    var fired, count := Fire(tab.lines, tab.tickets, env.stations, tab.outlet, env.now);
    if tab.state == Sent && count == 0 {
      return Err(InvalidTransition);
    }
    r := Ok(tab.(state := Sent, tickets := fired));
  }

  method CloseOrder(tab: Tab, env: Env, b: Bill) returns (r: Tab)
    ensures r == CloseWith(tab, env, b)
  {
    var fired, count := Fire(tab.lines, tab.tickets, env.stations, tab.outlet, env.now);
    r := tab.(bill := Some(b), tickets := fired, state := Closed);
  }

  method CreateOrGetBill(tab: Tab, env: Env) returns (r: Result<Tab>)
    ensures r == CreateBill(tab, env)
  {
    if tab.bill.Some? {
      var b := RefreshOpenBill(tab, env, tab.bill.value);
      return Ok(tab.(bill := Some(b)));
    }
    if tab.state == Closed {
      return Err(Conflict);
    }
    var subtotal := ComputeSubtotal(tab.lines);
    r := Ok(tab.(bill := Some(NewBill(tab.country, env.reg, subtotal))));
  }

  method ReadOpenBill(tab: Tab, env: Env) returns (r: Result<Tab>)
    ensures r == ReadBill(tab, env)
  {
    if tab.bill.None? {
      return Err(NotFound);
    }
    var b := RefreshOpenBill(tab, env, tab.bill.value);
    r := Ok(tab.(bill := Some(b)));
  }

  method ReadGuestBill(tab: Tab, env: Env) returns (r: Result<Tab>)
    ensures r == GuestRead(tab, env)
  {
    if tab.bill.None? {
      return Err(NotFound);
    }
    var b := RefreshOpenBill(tab, env, tab.bill.value);
    if b.status != Open {
      return Ok(tab.(bill := Some(b)));
    }
    var shares := SyncShares(tab.lines, Total(b), b.shares);
    if shares.Err? {
      return Err(shares.error);
    }
    r := Ok(tab.(bill := Some(b.(shares := shares.value))));
  }

  method CreateGuestBill(tab: Tab, env: Env, sessionActive: bool) returns (r: Result<Tab>)
    ensures r == GuestCreate(tab, env, sessionActive)
  {
    if !sessionActive {
      return Err(SessionClosed);
    }
    var created := CreateOrGetBill(tab, env);
    if created.Err? {
      return Err(created.error);
    }
    r := ReadGuestBill(created.value, env);
  }

  /** finalize: refresh, gates, tenders, commit, kitchen backstop, close. */
  method FinalizeBill(tab: Tab, env: Env, request: FinalizeRequest, number: nat) returns (r: Result<Tab>)
    ensures r == Finalize(tab, env, request, number)
  {
    if tab.bill.None? {
      return Err(NotFound);
    }
    var b := RefreshOpenBill(tab, env, tab.bill.value);
    if b.status == Finalized {
      return Err(AlreadyFinalized);
    }
    var gate := Gate(b.subtotal, request);
    if gate.Err? {
      return Err(gate.error);
    }
    var tenders := InsertTenders(b.tenders, request.tenders);
    if tenders.Err? {
      return Err(tenders.error);
    }
    var settled := CommitFinalize(tab.country, env.reg, env.simulator, env.now, b.(tenders := tenders.value), request.discount, number);
    if settled.Err? {
      return Err(settled.error);
    }
    var closed := CloseOrder(tab, env, settled.value);
    r := Ok(closed);
  }

  method OpenGuestPayment(tab: Tab, env: Env, sessionActive: bool) returns (r: Result<Bill>)
    ensures r == GuestPayable(tab, env, sessionActive)
  {
    if !env.simulator {
      return Err(ProviderUnavailable);
    }
    if tab.bill.None? {
      return Err(NotFound);
    }
    var b := RefreshOpenBill(tab, env, tab.bill.value);
    if b.status == Finalized {
      return Err(AlreadyFinalized);
    }
    if !sessionActive {
      return Err(SessionClosed);
    }
    var shares := SyncShares(tab.lines, Total(b), b.shares);
    if shares.Err? {
      return Err(shares.error);
    }
    r := Ok(b.(shares := shares.value));
  }

  method CompleteBill(tab: Tab, env: Env, b: Bill, number: nat) returns (r: Result<Tab>)
    ensures r == Complete(tab, env, b, number)
  {
    var settled := CommitFinalize(tab.country, env.reg, env.simulator, env.now, b, None, number);
    if settled.Err? {
      return Err(settled.error);
    }
    var closed := CloseOrder(tab, env, settled.value);
    r := Ok(closed);
  }

  /** payShare: one tender for exactly the share, and the bill completes itself with the last one. */
  method PayGuestShare(tab: Tab, env: Env, guest: Id, success: bool, sessionActive: bool, number: nat) returns (r: Result<Tab>)
    ensures r == PayShare(tab, env, guest, success, sessionActive, number)
  {
    var payable := OpenGuestPayment(tab, env, sessionActive);
    if payable.Err? {
      return Err(payable.error);
    }
    var b := payable.value;
    var i := IndexOfGuest(b.shares, guest);
    if i.None? {
      return Err(NotFound);
    }
    if b.shares[i.value].paid {
      return Err(ShareAlreadyPaid);
    }
    if !success {
      return Ok(tab.(bill := Some(b)));
    }
    b := WithSharePaid(b, i.value);
    var stillOutstanding := CountOutstanding(b.shares);
    if stillOutstanding == 0 {
      r := CompleteBill(tab, env, b, number);
    } else {
      r := Ok(tab.(bill := Some(b)));
    }
  }

  method CountOutstanding(shares: seq<Share>) returns (n: nat)
    ensures n == Outstanding(shares)
  {
    n := 0;
    for i := 0 to |shares|
      invariant n == Outstanding(shares[..i])
    {
      assert shares[..i + 1][..i] == shares[..i];
      if !shares[i].paid {
        n := n + 1;
      }
    }
    assert shares[..|shares|] == shares;
  }

  /** payAll: one payment for the whole bill, by manual UPI or the kiosk's card reader. */
  method PayWholeBill(tab: Tab, env: Env, kiosk: bool, success: bool, sessionActive: bool, number: nat) returns (r: Result<Tab>)
    ensures r == PayAll(tab, env, kiosk, success, sessionActive, number)
  {
    var payable := OpenGuestPayment(tab, env, sessionActive);
    if payable.Err? {
      return Err(payable.error);
    }
    var b := payable.value;
    if exists s :: s in b.shares && s.paid {
      return Err(PartialPaymentExists);
    }
    if !success {
      return Ok(tab.(bill := Some(b)));
    }
    var tenderId := |b.tenders|;
    if kiosk {
      var card := KioskCard(b, env);
      if card.Err? {
        return Err(card.error);
      }
      b := card.value;
    } else {
      b := b.(tenders := b.tenders + [Tender(UpiManual, Total(b), None, None)]);
    }
    r := CompleteBill(tab, env, b.(shares := MarkAllPaid(b.shares, tenderId)), number);
  }

  method RefundFinalBill(tab: Tab, request: Option<seq<Target>>, approved: bool) returns (r: Result<Tab>)
    ensures r == RefundBill(tab, request, approved)
  {
    if tab.bill.None? {
      return Err(NotFound);
    }
    var b := tab.bill.value;
    if b.status != Finalized {
      return Err(BillNotFinalized);
    }
    var note := MakeNote(tab.lines, FiguresOf(b), b.notes, request);
    if note.Err? {
      return Err(note.error);
    }
    if !approved {
      return Err(Forbidden);
    }
    r := Ok(tab.(bill := Some(b.(notes := b.notes + [note.value]))));
  }

  method RaisePaymentIntent(tab: Tab, env: Env, amount: Qty, terminal: bool) returns (r: Result<Tab>)
    ensures r == RaiseIntent(tab, env, amount, terminal)
  {
    if tab.bill.None? {
      return Err(NotFound);
    }
    var b := RefreshOpenBill(tab, env, tab.bill.value);
    var raised := CreateIntent(b, amount, env.now, env.simulator, terminal);
    r := OnBill(tab, raised);
  }
}
