/** What every transaction on an order keeps. */
module TabInvariant {
  import opened Prelude
  import opened Tax
  import opened Orders
  import opened Kitchen
  import opened Refunds
  import opened Bills
  import opened Payments
  import opened Shares
  import opened Settlement
  import opened Tabs

  /** Every billed item line is on a kitchen ticket, exactly once. */
  ghost predicate AllSent(lines: seq<Line>, tickets: seq<Ticket>) {
    forall l :: l in lines && !l.voided && l.kind.Item? ==> Count(tickets, l.id) == 1
  }

  /** A finalised bill's order no longer moves: its subtotal is the lines', its notes are exact, the kitchen has it all. */
  ghost predicate FrozenOk(lines: seq<Line>, tickets: seq<Ticket>, b: Bill) {
    && b.subtotal == Subtotal(lines)
    && NotesOk(lines, FiguresOf(b), b.notes)
    && AllSent(lines, tickets)
  }

  /** A paid share names the tender that paid it. */
  ghost predicate SharesLinked(shares: seq<Share>, tenders: seq<Tender>) {
    forall s :: s in shares && s.paid ==> s.tender.Some? && s.tender.value < |tenders|
  }

  /** The money rows are consistent, and an open bill that has shares has one left to pay. */
  ghost predicate BillOk(country: Country, b: Bill) {
    && MoneyOk(country, b)
    && SharesOk(b.shares)
    && SharesLinked(b.shares, b.tenders)
    && (b.status == Open && b.shares != [] ==> Outstanding(b.shares) > 0)
  }

  ghost predicate TabBillOk(tab: Tab) {
    && (tab.bill.Some? ==> BillOk(tab.country, tab.bill.value))
    && (tab.bill.Some? && tab.bill.value.status == Finalized ==> tab.state == Closed && FrozenOk(tab.lines, tab.tickets, tab.bill.value))
    && (tab.state == Closed && tab.bill.Some? ==> tab.bill.value.status == Finalized)
  }

  ghost predicate TabOk(tab: Tab, clock: nat) {
    && LinesOk(tab.lines, tab.next)
    && tab.createdAt <= clock
    && KitchenOk(tab.lines, tab.tickets, tab.createdAt, clock)
    && TabBillOk(tab)
  }

  lemma {:induction false} KitchenLater(lines: seq<Line>, tickets: seq<Ticket>, createdAt: nat, clock: nat, now: nat)
    requires KitchenOk(lines, tickets, createdAt, clock) && clock <= now
    ensures KitchenOk(lines, tickets, createdAt, now)
  {
    KitchenKept(lines, lines, tickets, createdAt, clock, now);
  }

  lemma {:induction false} TabLater(tab: Tab, clock: nat, now: nat)
    requires TabOk(tab, clock) && clock <= now
    ensures TabOk(tab, now)
  {
    KitchenLater(tab.lines, tab.tickets, tab.createdAt, clock, now);
  }

  // ---- Order lines -----------------------------------------------------------------------------

  lemma {:induction false} AddOk(tab: Tab, item: NewItem, guest: Option<Id>, clock: nat, now: nat)
    requires TabOk(tab, clock) && clock <= now && Add(tab, item, guest).Ok?
    ensures TabOk(Add(tab, item, guest).value, now)
  {
    AddItemOk(tab.lines, tab.next, item, guest);
    KitchenKept(tab.lines, AddItem(tab.lines, tab.next, item, guest).0, tab.tickets, tab.createdAt, clock, now);
  }

  lemma {:induction false} NotSentCounts(tab: Tab, id: Id, l: Line)
    requires !IsSent(tab, id) && l in tab.lines && (l.id == id || l.parent == Some(id))
    ensures Count(tab.tickets, l.id) == 0
  {
    assert l.id in FamilyIds(tab.lines, id);
  }

  lemma {:induction false} UpdateOk(tab: Tab, id: Id, quantity: Option<Qty>, modifiers: Option<seq<nat>>, clock: nat, now: nat)
    requires TabOk(tab, clock) && clock <= now && Update(tab, id, quantity, modifiers).Ok?
    ensures TabOk(Update(tab, id, quantity, modifiers).value, now)
  {
    var i := LoadLine(tab, id).value;
    var lines' := Update(tab, id, quantity, modifiers).value.lines;
    EditOk(tab.lines, tab.next, i, quantity, modifiers);
    forall l | l in tab.lines && Count(tab.tickets, l.id) > 0
      ensures l in lines'
    {
      var k :| 0 <= k < |tab.lines| && tab.lines[k] == l;
      if k == i {
        NotSentCounts(tab, id, l);
      } else {
        assert lines'[k] == l;
      }
    }
    KitchenKept(tab.lines, lines', tab.tickets, tab.createdAt, clock, now);
  }

  lemma {:induction false} RemoveLineOk(tab: Tab, id: Id, clock: nat, now: nat)
    requires TabOk(tab, clock) && clock <= now && RemoveLine(tab, id).Ok?
    ensures TabOk(RemoveLine(tab, id).value, now)
  {
    var lines' := Remove(tab.lines, id);
    RemoveOk(tab.lines, tab.next, id);
    forall l | l in tab.lines && Count(tab.tickets, l.id) > 0
      ensures l in lines'
    {
      assert l.id !in FamilyIds(tab.lines, id);
    }
    KitchenKept(tab.lines, lines', tab.tickets, tab.createdAt, clock, now);
  }

  lemma {:induction false} VoidLineOk(tab: Tab, id: Id, approved: bool, clock: nat, now: nat)
    requires TabOk(tab, clock) && clock <= now && VoidLine(tab, id, approved).Ok?
    ensures TabOk(VoidLine(tab, id, approved).value, now)
  {
    var i := LoadLine(tab, id).value;
    VoidOk(tab.lines, tab.next, id, tab.lines[i]);
    VoidKitchenOk(tab.lines, tab.tickets, FamilyIds(tab.lines, id), tab.createdAt, clock, now);
  }

  // ---- Kitchen ---------------------------------------------------------------------------------

  lemma {:induction false} FiredOk(tab: Tab, env: Env, clock: nat)
    requires LinesOk(tab.lines, tab.next) && tab.createdAt <= clock && KitchenOk(tab.lines, tab.tickets, tab.createdAt, clock) && clock <= env.now
    ensures KitchenOk(tab.lines, Fired(tab, env), tab.createdAt, env.now)
    ensures AllSent(tab.lines, Fired(tab, env))
  {
    KitchenLater(tab.lines, tab.tickets, tab.createdAt, clock, env.now);
    FireOnSendOk(tab.lines, tab.tickets, RouteOf(env.stations, tab.outlet), tab.createdAt, env.now);
  }

  lemma {:induction false} SendOk(tab: Tab, env: Env, clock: nat)
    requires TabOk(tab, clock) && clock <= env.now && Send(tab, env).Ok?
    ensures TabOk(Send(tab, env).value, env.now)
  {
    FiredOk(tab, env, clock);
  }

  lemma {:induction false} TicketStepOk(tab: Tab, env: Env, i: nat, action: TicketAction, clock: nat)
    requires TabOk(tab, clock) && clock <= env.now && TicketStep(tab, env, i, action).Ok?
    ensures TabOk(TicketStep(tab, env, i, action).value, env.now)
  {
    var tab' := TicketStep(tab, env, i, action).value;
    assert tab.tickets[i] in tab.tickets;
    ActOk(tab.tickets[i], action, tab.createdAt, clock, env.now);
    ActKitchenOk(tab.lines, tab.tickets, i, tab'.tickets[i], tab'.tickets, tab.createdAt, clock, env.now);
  }

  // ---- Reading and creating bills ------------------------------------------------------------------

  lemma {:induction false} NewBillOk(country: Country, reg: Registration, subtotal: nat)
    ensures BillOk(country, NewBill(country, reg, subtotal))
  {
    TaxNonNegative(country, reg, 0);
  }

  lemma {:induction false} RefreshedOk(country: Country, reg: Registration, subtotal: nat, b: Bill)
    requires BillOk(country, b)
    ensures BillOk(country, Refresh(country, reg, subtotal, b))
    ensures b.status == Open ==>
              var b' := Refresh(country, reg, subtotal, b);
              && b'.status == Open
              && b'.subtotal == subtotal
              && b'.tax == ComputeTax(country, reg, subtotal).tax
              && Total(b') == TotalFor(country, reg, subtotal)
              && b'.tenders == b.tenders && b'.intents == b.intents && b'.shares == b.shares
  {
    if b.status == Open {
      RefreshTotal(country, reg, subtotal, b);
      TaxNonNegative(country, reg, 0);
    }
  }

  lemma {:induction false} ReadBillOk(tab: Tab, env: Env, clock: nat)
    requires TabOk(tab, clock) && clock <= env.now && ReadBill(tab, env).Ok?
    ensures TabOk(ReadBill(tab, env).value, env.now)
  {
    TabLater(tab, clock, env.now);
    RefreshedOk(tab.country, env.reg, Subtotal(tab.lines), tab.bill.value);
  }

  lemma {:induction false} CreateBillOk(tab: Tab, env: Env, clock: nat)
    requires TabOk(tab, clock) && clock <= env.now && CreateBill(tab, env).Ok?
    ensures TabOk(CreateBill(tab, env).value, env.now)
  {
    if tab.bill.Some? {
      ReadBillOk(tab, env, clock);
    } else {
      TabLater(tab, clock, env.now);
      NewBillOk(tab.country, env.reg, Subtotal(tab.lines));
    }
  }

  /** A synced open bill is still consistent, and its shares now sum to its total. */
  lemma {:induction false} SyncedOk(country: Country, lines: seq<Line>, b: Bill)
    requires BillOk(country, b) && b.status == Open && Sync(lines, Total(b), b.shares).Ok?
    ensures var b' := b.(shares := Sync(lines, Total(b), b.shares).value);
            && BillOk(country, b')
            && SumBy(b'.shares, ShareAmount) == Total(b')
  {
    var shares' := Sync(lines, Total(b), b.shares).value;
    SyncExact(lines, Total(b), b.shares);
    StillOutstanding(b.shares, shares');
    forall s | s in shares' && s.paid
      ensures s.tender.Some? && s.tender.value < |b.tenders|
    {
      var k :| 0 <= k < |shares'| && shares'[k] == s;
      assert s == b.shares[k] && b.shares[k] in b.shares;
    }
    SharesOnly(country, b, shares');
  }

  lemma {:induction false} StillOutstanding(shares: seq<Share>, shares': seq<Share>)
    requires |shares| <= |shares'| && (shares != [] ==> Outstanding(shares) > 0)
    requires forall k :: 0 <= k < |shares| ==> shares'[k].paid == shares[k].paid
    requires forall k :: |shares| <= k < |shares'| ==> !shares'[k].paid
    ensures shares' != [] ==> Outstanding(shares') > 0
  {
    OutstandingIff(shares');
    if shares != [] {
      OutstandingIff(shares);
      var s :| s in shares && !s.paid;
      var k :| 0 <= k < |shares| && shares[k] == s;
      assert shares'[k] in shares';
    } else if shares' != [] {
      assert shares'[0] in shares';
    }
  }

  /** Shares that leave the paid total alone leave the bill's money balance alone. */
  lemma {:induction false} SharesOnly(country: Country, b: Bill, shares': seq<Share>)
    requires BillOk(country, b) && SharesOk(shares') && SharesLinked(shares', b.tenders) && Paid(shares') == Paid(b.shares)
    requires b.status == Open && (shares' != [] ==> Outstanding(shares') > 0)
    ensures BillOk(country, b.(shares := shares'))
  {
  }

  lemma {:induction false} GuestReadOk(tab: Tab, env: Env, clock: nat)
    requires TabOk(tab, clock) && clock <= env.now && GuestRead(tab, env).Ok?
    ensures TabOk(GuestRead(tab, env).value, env.now)
  {
    TabLater(tab, clock, env.now);
    var b := Refreshed(tab, env, tab.bill.value);
    RefreshedOk(tab.country, env.reg, Subtotal(tab.lines), tab.bill.value);
    if b.status == Open {
      SyncedOk(tab.country, tab.lines, b);
    }
  }

  lemma {:induction false} GuestCreateOk(tab: Tab, env: Env, sessionActive: bool, clock: nat)
    requires TabOk(tab, clock) && clock <= env.now && GuestCreate(tab, env, sessionActive).Ok?
    ensures TabOk(GuestCreate(tab, env, sessionActive).value, env.now)
  {
    CreateBillOk(tab, env, clock);
    GuestReadOk(CreateBill(tab, env).value, env, env.now);
  }

  // ---- Settling ------------------------------------------------------------------------------------

  lemma {:induction false} NoNotesOk(lines: seq<Line>, figures: Figures)
    ensures NotesOk(lines, figures, [])
  {
    assert AllLines([]) == [];
  }

  /** Closing the order with a freshly settled bill. */
  lemma {:induction false} CloseOk(tab: Tab, env: Env, b: Bill, clock: nat)
    requires TabOk(tab, clock) && clock <= env.now
    requires MoneyOk(tab.country, b) && SharesOk(b.shares) && SharesLinked(b.shares, b.tenders) && b.status == Finalized
    requires b.subtotal == Subtotal(tab.lines) && b.notes == []
    ensures TabOk(CloseWith(tab, env, b), env.now)
  {
    FiredOk(tab, env, clock);
    NoNotesOk(tab.lines, FiguresOf(b));
  }

  /** The bill is finalised under the number, the order closed with its lines as they were, and every billed item in the kitchen. */
  ghost predicate Closes(tab: Tab, tab': Tab, number: nat) {
    && tab'.bill.Some? && tab'.bill.value.status == Finalized && tab'.bill.value.number == Some(number)
    && tab'.state == Closed && tab'.lines == tab.lines
    && AllSent(tab'.lines, tab'.tickets)
  }

  /** A commit over a refreshed bill, whatever tenders were added, settles and closes. */
  lemma {:induction false} CommitCloses(tab: Tab, env: Env, b: Bill, discount: Option<nat>, number: nat, clock: nat)
    requires TabOk(tab, clock) && clock <= env.now
    requires b.status == Open && b.notes == [] && SharesOk(b.shares) && SharesLinked(b.shares, b.tenders) && BillIntentsOk(b) && FlagCoherent(tab.country, b)
    requires b.subtotal == Subtotal(tab.lines) && b.tax == ComputeTax(tab.country, env.reg, b.subtotal).tax
    requires Commit(tab.country, env.reg, env.simulator, env.now, b, discount, number).Ok?
    ensures TabOk(CloseWith(tab, env, Commit(tab.country, env.reg, env.simulator, env.now, b, discount, number).value), env.now)
    ensures Closes(tab, CloseWith(tab, env, Commit(tab.country, env.reg, env.simulator, env.now, b, discount, number).value), number)
  {
    TaxNonNegative(tab.country, env.reg, 0);
    CommitSettles(tab.country, env.reg, env.simulator, env.now, b, discount, number);
    CloseOk(tab, env, Commit(tab.country, env.reg, env.simulator, env.now, b, discount, number).value, clock);
  }

  lemma {:induction false} FinalizeOk(tab: Tab, env: Env, request: FinalizeRequest, number: nat, clock: nat)
    requires TabOk(tab, clock) && clock <= env.now && Finalize(tab, env, request, number).Ok?
    ensures TabOk(Finalize(tab, env, request, number).value, env.now)
    ensures Closes(tab, Finalize(tab, env, request, number).value, number)
  {
    RefreshedOk(tab.country, env.reg, Subtotal(tab.lines), tab.bill.value);
    var b := Refreshed(tab, env, tab.bill.value);
    WriteTendersOk(b, request.tenders);
    CommitCloses(tab, env, b.(tenders := WriteTenders(b.tenders, request.tenders).value), request.discount, number, clock);
  }

  // ---- Guest payments --------------------------------------------------------------------------------

  /** What a guest payment starts from: an open consistent bill whose shares sum to its total. */
  lemma {:induction false} GuestPayableOk(tab: Tab, env: Env, sessionActive: bool, clock: nat)
    requires TabOk(tab, clock) && GuestPayable(tab, env, sessionActive).Ok?
    ensures var b := GuestPayable(tab, env, sessionActive).value;
            && BillOk(tab.country, b)
            && tab.state != Closed
            && SumBy(b.shares, ShareAmount) == Total(b) == TotalFor(tab.country, env.reg, Subtotal(tab.lines))
            && b.subtotal == Subtotal(tab.lines)
            && b.tax == ComputeTax(tab.country, env.reg, b.subtotal).tax
            && b.tenders == tab.bill.value.tenders && b.intents == tab.bill.value.intents
            && Paid(b.shares) == Paid(tab.bill.value.shares)
  {
    RefreshedOk(tab.country, env.reg, Subtotal(tab.lines), tab.bill.value);
    var b := Refreshed(tab, env, tab.bill.value);
    SyncedOk(tab.country, tab.lines, b);
    SyncExact(tab.lines, Total(b), b.shares);
  }

  lemma {:induction false} SharePaidOk(country: Country, b: Bill, i: nat)
    requires BillOk(country, b) && b.status == Open && i < |b.shares| && !b.shares[i].paid
    ensures var b' := WithSharePaid(b, i);
            && MoneyOk(country, b') && SharesOk(b'.shares) && SharesLinked(b'.shares, b'.tenders)
            && SumBy(b'.shares, ShareAmount) == SumBy(b.shares, ShareAmount)
            && Paid(b'.shares) == Paid(b.shares) + b.shares[i].amount <= SumBy(b'.shares, ShareAmount)
  {
    var t := Tender(UpiManual, b.shares[i].amount, None, None);
    assert b.shares[i] in b.shares;
    MarkPaid(b.shares, i, |b.tenders|);
    ManualTenderOk(b, t);
    SumBySnoc(b.tenders, t, TenderAmount);
    SumBySnoc(b.tenders, t, CashAmount);
    LinkedStill(b.shares, i, b.tenders, t);
  }

  lemma {:induction false} LinkedStill(shares: seq<Share>, i: nat, tenders: seq<Tender>, t: Tender)
    requires SharesLinked(shares, tenders) && i < |shares|
    ensures SharesLinked(shares[i := shares[i].(paid := true, tender := Some(|tenders|))], tenders + [t])
  {
    var shares' := shares[i := shares[i].(paid := true, tender := Some(|tenders|))];
    forall s | s in shares' && s.paid
      ensures s.tender.Some? && s.tender.value < |tenders + [t]|
    {
      assert s == shares'[i] || s in shares;
    }
  }

  lemma {:induction false} PayShareOk(tab: Tab, env: Env, guest: Id, success: bool, sessionActive: bool, number: nat, clock: nat)
    requires TabOk(tab, clock) && clock <= env.now && PayShare(tab, env, guest, success, sessionActive, number).Ok?
    ensures TabOk(PayShare(tab, env, guest, success, sessionActive, number).value, env.now)
  {
    TabLater(tab, clock, env.now);
    GuestPayableOk(tab, env, sessionActive, clock);
    var b := GuestPayable(tab, env, sessionActive).value;
    var i := IndexOfGuest(b.shares, guest).value;
    if success {
      SharePaidOk(tab.country, b, i);
      var b' := WithSharePaid(b, i);
      if Outstanding(b'.shares) == 0 {
        CommitCloses(tab, env, b', None, number, clock);
      }
    }
  }

  lemma {:induction false} KioskCardOk(country: Country, b: Bill, env: Env)
    requires BillOk(country, b) && b.status == Open && 0 <= Total(b) && KioskCard(b, env).Ok?
    ensures var b' := KioskCard(b, env).value;
            && BillIntentsOk(b')
            && b' == b.(tenders := b'.tenders, intents := b'.intents)
            && |b'.tenders| == |b.tenders| + 1
            && Tendered(b'.tenders) == Tendered(b.tenders) + Total(b)
            && CashOf(b'.tenders) == CashOf(b.tenders)
            && |b'.intents| == |b.intents| + 1
            && b'.intents[|b.intents|].status == Succeeded
            && b'.tenders[|b.tenders|] == Tender(CardTerminal, Total(b), None, Some(|b.intents|))
  {
    RaisedAndConfirmed(b, KioskIntent(b, env), env.simulator);
    var t := Tender(CardTerminal, Total(b), None, Some(|b.intents|));
    SumBySnoc(b.tenders, t, TenderAmount);
    SumBySnoc(b.tenders, t, CashAmount);
  }

  function KioskIntent(b: Bill, env: Env): Intent {
    Intent(CardTerminal, Simulated, Total(b), Pending, NoReason, env.now + 60_000)
  }

  /** Raising an intent and confirming it at once adds one succeeded intent and its one tender. */
  lemma {:induction false} RaisedAndConfirmed(b: Bill, intent: Intent, simulator: bool)
    requires BillIntentsOk(b) && b.status == Open && Active(intent) && intent.rail.Electronic() && intent.reason == NoReason && 0 <= intent.amount
    requires forall x :: x in b.intents ==> !Active(x)
    requires Confirm(AppendIntent(b, intent), |b.intents|, simulator).Ok?
    ensures var b' := Confirm(AppendIntent(b, intent), |b.intents|, simulator).value;
            && BillIntentsOk(b')
            && b' == b.(intents := b.intents + [intent.(status := Succeeded)], tenders := b.tenders + [Tender(intent.rail, intent.amount, None, Some(|b.intents|))])
  {
    var raised := AppendIntent(b, intent);
    AppendIntentOk(b, intent);
    UnsettledHasNoTender(raised, |b.intents|);
    ConfirmOk(raised, |b.intents|, simulator);
    assert raised.intents[|b.intents| := intent.(status := Succeeded)] == b.intents + [intent.(status := Succeeded)];
  }

  lemma {:induction false} PayAllOk(tab: Tab, env: Env, kiosk: bool, success: bool, sessionActive: bool, number: nat, clock: nat)
    requires TabOk(tab, clock) && clock <= env.now && PayAll(tab, env, kiosk, success, sessionActive, number).Ok?
    ensures TabOk(PayAll(tab, env, kiosk, success, sessionActive, number).value, env.now)
  {
    TabLater(tab, clock, env.now);
    GuestPayableOk(tab, env, sessionActive, clock);
    var b := GuestPayable(tab, env, sessionActive).value;
    if success {
      TaxNonNegative(tab.country, env.reg, Subtotal(tab.lines));
      var b';
      if kiosk {
        b' := KioskCard(b, env).value;
        KioskCardOk(tab.country, b, env);
      } else {
        var t := Tender(UpiManual, Total(b), None, None);
        b' := b.(tenders := b.tenders + [t]);
        ManualTenderOk(b, t);
      }
      MarkAllPaidOk(b'.shares, |b.tenders|);
      CommitCloses(tab, env, b'.(shares := MarkAllPaid(b'.shares, |b.tenders|)), None, number, clock);
    }
  }

  // ---- Refunds, intents, discard ------------------------------------------------------------------------

  lemma {:induction false} RefundBillOk(tab: Tab, request: Option<seq<Target>>, approved: bool, clock: nat, now: nat)
    requires TabOk(tab, clock) && clock <= now && RefundBill(tab, request, approved).Ok?
    ensures TabOk(RefundBill(tab, request, approved).value, now)
  {
    TabLater(tab, clock, now);
    var b := tab.bill.value;
    RefundOk(tab.lines, tab.next, FiguresOf(b), b.notes, request);
    NotesOnly(tab.country, b, b.notes + [Refund(tab.lines, FiguresOf(b), b.notes, request).value]);
  }

  /** Credit notes touch nothing else on a finalised bill. */
  lemma {:induction false} NotesOnly(country: Country, b: Bill, notes': seq<Note>)
    requires BillOk(country, b) && b.status == Finalized
    ensures BillOk(country, b.(notes := notes')) && FiguresOf(b.(notes := notes')) == FiguresOf(b)
  {
  }

  /** An intent step that keeps the bill's other rows keeps an open bill's money balance. */
  lemma {:induction false} IntentMoneyOk(country: Country, b: Bill, b': Bill)
    requires BillOk(country, b) && BillIntentsOk(b')
    requires b' == b.(tenders := b'.tenders, intents := b'.intents)
    requires b.tenders <= b'.tenders
    requires b.status == Finalized ==> b'.tenders == b.tenders
    requires b.status == Open ==>
               && Tendered(b'.tenders) - Tendered(b.tenders) == SumBy(b'.intents, CapturedAmount) - SumBy(b.intents, CapturedAmount)
               && CashOf(b'.tenders) == CashOf(b.tenders)
    ensures BillOk(country, b')
  {
  }

  lemma {:induction false} ConfirmMoney(b: Bill, i: nat, simulator: bool)
    requires BillIntentsOk(b) && Confirm(b, i, simulator).Ok?
    ensures var b' := Confirm(b, i, simulator).value;
            && b' == b.(tenders := b'.tenders, intents := b'.intents)
            && b.tenders <= b'.tenders
            && (b.status == Finalized ==> b'.tenders == b.tenders)
            && (b.status == Open ==>
                  && Tendered(b'.tenders) - Tendered(b.tenders) == SumBy(b'.intents, CapturedAmount) - SumBy(b.intents, CapturedAmount)
                  && CashOf(b'.tenders) == CashOf(b.tenders))
  {
    var b' := Confirm(b, i, simulator).value;
    var intent := b.intents[i];
    if intent.status != Succeeded && b' != b {
      assert IntentOk(b.status, b.tenders, b.intents, i);
      UnsettledHasNoTender(b, i);
      SumByUpdate(b.intents, i, b'.intents[i], CapturedAmount);
      var t := Tender(intent.rail, intent.amount, None, Some(i));
      SumBySnoc(b.tenders, t, TenderAmount);
      SumBySnoc(b.tenders, t, CashAmount);
    }
  }

  lemma {:induction false} SettleNothing(b: Bill, i: nat, intent: Intent)
    requires i < |b.intents| && b.intents[i].status != Succeeded && intent.status != Succeeded
    ensures SumBy(WithIntent(b, i, intent).intents, CapturedAmount) == SumBy(b.intents, CapturedAmount)
  {
    SumByUpdate(b.intents, i, intent, CapturedAmount);
  }

  lemma {:induction false} ConfirmBillOk(country: Country, b: Bill, i: nat, simulator: bool)
    requires BillOk(country, b) && Confirm(b, i, simulator).Ok?
    ensures BillOk(country, Confirm(b, i, simulator).value)
  {
    ConfirmOk(b, i, simulator);
    ConfirmMoney(b, i, simulator);
    IntentMoneyOk(country, b, Confirm(b, i, simulator).value);
  }

  lemma {:induction false} FailBillOk(country: Country, b: Bill, i: nat)
    requires BillOk(country, b) && Fail(b, i).Ok?
    ensures BillOk(country, Fail(b, i).value)
  {
    var b' := Fail(b, i).value;
    FailOk(b, i);
    if b' != b {
      SettleNothing(b, i, b'.intents[i]);
      IntentMoneyOk(country, b, b');
    }
  }

  lemma {:induction false} ExpireBillOk(country: Country, b: Bill, i: nat, now: nat)
    requires BillOk(country, b) && ExpireIfDue(b, i, now).Ok?
    ensures BillOk(country, ExpireIfDue(b, i, now).value)
  {
    var b' := ExpireIfDue(b, i, now).value;
    ExpireOk(b, i, now);
    if b' != b {
      SettleNothing(b, i, b'.intents[i]);
      IntentMoneyOk(country, b, b');
    }
  }

  lemma {:induction false} CancelBillOk(country: Country, b: Bill, i: nat, now: nat)
    requires BillOk(country, b) && Cancel(b, i, now).Ok?
    ensures BillOk(country, Cancel(b, i, now).value)
  {
    ExpireBillOk(country, b, i, now);
    var expired, b' := ExpireIfDue(b, i, now).value, Cancel(b, i, now).value;
    CancelOk(b, i, now);
    if b' != expired {
      SettleNothing(expired, i, b'.intents[i]);
      IntentMoneyOk(country, expired, b');
    }
  }

  /** A bill step that leaves lines, status and settlement figures alone keeps the order consistent. */
  lemma {:induction false} BillOnlyOk(tab: Tab, b': Bill, now: nat)
    requires TabOk(tab, now) && tab.bill.Some? && BillOk(tab.country, b') && SameFigures(tab.bill.value, b')
    ensures TabOk(tab.(bill := Some(b')), now)
  {
    assert FiguresOf(b') == FiguresOf(tab.bill.value);
  }

  ghost predicate SameFigures(b: Bill, b': Bill) {
    b'.status == b.status && b'.subtotal == b.subtotal && b'.tax == b.tax && b'.discount == b.discount && b'.notes == b.notes
  }

  lemma {:induction false} IntentBillOk(country: Country, b: Bill, env: Env, i: nat, action: IntentAction)
    requires BillOk(country, b) && IntentBill(b, env, i, action).Ok?
    ensures BillOk(country, IntentBill(b, env, i, action).value)
  {
    match action
    case ConfirmIntent => ConfirmBillOk(country, b, i, env.simulator);
    case FailIntent => FailBillOk(country, b, i);
    case ExpireIntent => ExpireBillOk(country, b, i, env.now);
    case CancelIntent => CancelBillOk(country, b, i, env.now);
  }

  lemma {:induction false} IntentBillFrame(b: Bill, env: Env, i: nat, action: IntentAction)
    requires IntentBill(b, env, i, action).Ok?
    ensures SameFigures(b, IntentBill(b, env, i, action).value)
    ensures b.tenders <= IntentBill(b, env, i, action).value.tenders
    ensures IntentBill(b, env, i, action).value.shares == b.shares
  {
  }

  lemma {:induction false} IntentStepOk(tab: Tab, env: Env, i: nat, action: IntentAction, clock: nat)
    requires TabOk(tab, clock) && clock <= env.now && IntentStep(tab, env, i, action).Ok?
    ensures TabOk(IntentStep(tab, env, i, action).value, env.now)
  {
    TabLater(tab, clock, env.now);
    IntentBillOk(tab.country, tab.bill.value, env, i, action);
    IntentBillFrame(tab.bill.value, env, i, action);
    BillOnlyOk(tab, IntentBill(tab.bill.value, env, i, action).value, env.now);
  }

  lemma {:induction false} RaiseIntentOk(tab: Tab, env: Env, amount: Qty, terminal: bool, clock: nat)
    requires TabOk(tab, clock) && clock <= env.now && RaiseIntent(tab, env, amount, terminal).Ok?
    ensures TabOk(RaiseIntent(tab, env, amount, terminal).value, env.now)
  {
    TabLater(tab, clock, env.now);
    var b := Refreshed(tab, env, tab.bill.value);
    RefreshedOk(tab.country, env.reg, Subtotal(tab.lines), tab.bill.value);
    CreateIntentOk(b, amount, env.now, env.simulator, terminal);
    var b' := RaiseIntent(tab, env, amount, terminal).value.bill.value;
    var active := FirstActive(b.intents);
    var expired := if active.Some? then ExpireIfDue(b, active.value, env.now).value else b;
    if expired != b {
      SettleNothing(b, active.value, expired.intents[active.value]);
    }
    SumBySnoc(expired.intents, b'.intents[|expired.intents|], CapturedAmount);
    IntentMoneyOk(tab.country, b, b');
  }

  lemma {:induction false} DiscardOk(tab: Tab, clock: nat, now: nat)
    requires TabOk(tab, clock) && clock <= now && Discard(tab).Ok?
    ensures TabOk(Discard(tab).value, now)
  {
    TabLater(tab, clock, now);
  }

  // ---- Every transaction -------------------------------------------------------------------------------------

  /** Whatever the transaction, a consistent order stays consistent. */
  lemma {:induction false} ApplyOk(tab: Tab, op: Op, env: Env, number: nat, clock: nat)
    requires TabOk(tab, clock) && clock <= env.now && Apply(tab, op, env, number).Ok?
    ensures TabOk(Apply(tab, op, env, number).value, env.now)
  {
    match op
    case OpAdd(item) => AddOk(tab, item, None, clock, env.now);
    case OpUpdate(line, quantity, modifiers) => UpdateOk(tab, line, quantity, modifiers, clock, env.now);
    case OpRemove(line) => RemoveLineOk(tab, line, clock, env.now);
    case OpVoid(line, approved) => VoidLineOk(tab, line, approved, clock, env.now);
    case OpSend => SendOk(tab, env, clock);
    case OpDiscard => DiscardOk(tab, clock, env.now);
    case OpCreateBill => CreateBillOk(tab, env, clock);
    case OpReadBill => ReadBillOk(tab, env, clock);
    case OpGuestCreate(sessionActive) => GuestCreateOk(tab, env, sessionActive, clock);
    case OpGuestRead => GuestReadOk(tab, env, clock);
    case OpFinalize(request) => FinalizeOk(tab, env, request, number, clock);
    case OpPayShare(guest, success, sessionActive) => PayShareOk(tab, env, guest, success, sessionActive, number, clock);
    case OpPayAll(kiosk, success, sessionActive) => PayAllOk(tab, env, kiosk, success, sessionActive, number, clock);
    case OpRefund(targets, approved) => RefundBillOk(tab, targets, approved, clock, env.now);
    case OpRaiseIntent(amount, terminal) => RaiseIntentOk(tab, env, amount, terminal, clock);
    case OpIntent(intent, intentAction) => IntentStepOk(tab, env, intent, intentAction, clock);
    case OpTicket(ticket, ticketAction) => TicketStepOk(tab, env, ticket, ticketAction, clock);
  }

  lemma {:induction false} NewTabOk(country: Country, outlet: Id, now: nat)
    ensures TabOk(NewTab(country, outlet, now), now)
  {
    assert forall id :: Count([], id) == 0;
  }

  lemma {:induction false} PlaceItemsOk(tab: Tab, items: seq<Placement>, clock: nat)
    requires TabOk(tab, clock) && tab.state == OrderOpen
    ensures TabOk(PlaceItems(tab, items), clock) && PlaceItems(tab, items).state == OrderOpen
    ensures PlaceItems(tab, items).bill == tab.bill
  {
    if |items| > 0 {
      PlaceItemsOk(tab, items[..|items| - 1], clock);
      var last := items[|items| - 1];
      AddOk(PlaceItems(tab, items[..|items| - 1]), last.item, last.guest, clock, clock);
    }
  }

  lemma {:induction false} PlaceOk(country: Country, outlet: Id, env: Env, items: seq<Placement>)
    ensures TabOk(Place(country, outlet, env, items), env.now)
    ensures Place(country, outlet, env, items).bill == None
    ensures AllSent(Place(country, outlet, env, items).lines, Place(country, outlet, env, items).tickets)
  {
    var tab := NewTab(country, outlet, env.now);
    NewTabOk(country, outlet, env.now);
    PlaceItemsOk(tab, items, env.now);
    FiredOk(PlaceItems(tab, items), env, env.now);
  }
}
