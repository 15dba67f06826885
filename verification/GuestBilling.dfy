/** Paid money protects a bill: its price cannot fall, so guest shares can always be paid off. */
module GuestBilling {
  import opened Prelude
  import opened Rounding
  import opened Tax
  import opened Orders
  import opened Bills
  import opened Payments
  import opened Shares
  import opened Settlement
  import opened Tabs
  import opened TabInvariant
  import opened Ledger
  import opened Theorems

  // ---- Line changes under payment ----------------------------------------------------------------

  lemma {:induction false} EditedNotCheaper(l: Line, quantity: Option<Qty>, modifiers: Option<seq<nat>>)
    requires quantity.Some? ==> quantity.value >= l.quantity
    requires modifiers.Some? ==> ModifiersTotal(modifiers.value) >= ModifiersTotal(l.modifiers)
    ensures LineTotal(Edited(l, quantity, modifiers)) >= LineTotal(l)
  {
    var l' := Edited(l, quantity, modifiers);
    ProductMonotone(l.quantity, l'.quantity, Unit(l), Unit(l'));
  }

  lemma {:induction false} ProductMonotone(a: nat, b: nat, x: nat, y: nat)
    requires a <= b && x <= y
    ensures a * x <= b * y
  {
    Distribute(x, a, b - a);
    Distribute(b, x, y - x);
  }

  /** While a bill has a tender, an active intent or a paid share, no transaction lowers its order's subtotal. */
  lemma {:induction false} PaymentsProtectSubtotal(tab: Tab, op: Op, env: Env, number: nat)
    requires PaymentsTaken(tab) && Apply(tab, op, env, number).Ok?
    ensures Subtotal(Apply(tab, op, env, number).value.lines) >= Subtotal(tab.lines)
  {
    if op.OpAdd? {
      AddItemTotal(tab.lines, tab.next, op.item, None);
    } else if op.OpUpdate? {
      var i := LoadLine(tab, op.line).value;
      EditedNotCheaper(tab.lines[i], op.quantity, op.modifiers);
      SumByUpdate(tab.lines, i, Edited(tab.lines[i], op.quantity, op.modifiers), Billed);
    } else {
      LinesUntouched(tab, op, env, number);
    }
  }

  /** Under payment, only adding or editing a line touches the lines at all. */
  lemma {:induction false} LinesUntouched(tab: Tab, op: Op, env: Env, number: nat)
    requires PaymentsTaken(tab) && !op.OpAdd? && !op.OpUpdate? && Apply(tab, op, env, number).Ok?
    ensures Apply(tab, op, env, number).value.lines == tab.lines
  {
    match op
    case OpFinalize(request) => LinesKeptByFinalize(tab, env, request, number);
    case OpPayShare(guest, success, sessionActive) => LinesKeptByShare(tab, env, guest, success, sessionActive, number);
    case OpPayAll(kiosk, success, sessionActive) => LinesKeptByWhole(tab, env, kiosk, success, sessionActive, number);
    case _ =>
  }

  lemma {:induction false} LinesKeptByFinalize(tab: Tab, env: Env, request: FinalizeRequest, number: nat)
    ensures Finalize(tab, env, request, number).Ok? ==> Finalize(tab, env, request, number).value.lines == tab.lines
  {
  }

  lemma {:induction false} LinesKeptByShare(tab: Tab, env: Env, guest: Id, success: bool, sessionActive: bool, number: nat)
    ensures PayShare(tab, env, guest, success, sessionActive, number).Ok? ==> PayShare(tab, env, guest, success, sessionActive, number).value.lines == tab.lines
  {
  }

  lemma {:induction false} LinesKeptByWhole(tab: Tab, env: Env, kiosk: bool, success: bool, sessionActive: bool, number: nat)
    ensures PayAll(tab, env, kiosk, success, sessionActive, number).Ok? ==> PayAll(tab, env, kiosk, success, sessionActive, number).value.lines == tab.lines
  {
  }

  // ---- Over runs --------------------------------------------------------------------------------------

  /** Payments were on the order's bill before every transaction of the run. */
  ghost predicate PaidThroughout(db: Db, events: seq<Event>, id: Id) {
    |events| == 0 ||
    (&& PaidThroughout(db, events[..|events| - 1], id)
     && id in Run(db, events[..|events| - 1]).tabs
     && PaymentsTaken(Run(db, events[..|events| - 1]).tabs[id]))
  }

  /** While payments stay on a bill, no run lowers its subtotal or, whatever the registration, its payable total. */
  lemma {:induction false} ProtectedRun(db: Db, events: seq<Event>, id: Id, reg: Registration)
    requires id in db.tabs && PaidThroughout(db, events, id)
    ensures id in Run(db, events).tabs
    ensures Subtotal(Run(db, events).tabs[id].lines) >= Subtotal(db.tabs[id].lines)
    ensures TotalFor(db.country, reg, Subtotal(Run(db, events).tabs[id].lines)) >= TotalFor(db.country, reg, Subtotal(db.tabs[id].lines))
  {
    if |events| > 0 {
      var before, e := Run(db, events[..|events| - 1]), events[|events| - 1];
      ProtectedRun(db, events[..|events| - 1], id, reg);
      StepOnTab(before, e, id);
      if Step(before, e).tabs[id] != before.tabs[id] {
        PaymentsProtectSubtotal(before.tabs[id], e.action.op, EnvAt(before.clock, e), NextNumber(before, id));
      }
      TotalMonotone(db.country, reg, Subtotal(db.tabs[id].lines), Subtotal(Run(db, events).tabs[id].lines));
    }
  }

  /** A tender is never taken off a bill, nor the bill off its order. */
  ghost predicate TendersKept(tab: Tab, tab': Tab) {
    tab.bill.Some? && |tab.bill.value.tenders| > 0 ==> tab'.bill.Some? && tab.bill.value.tenders <= tab'.bill.value.tenders
  }

  lemma {:induction false} TendersKeptByOrder(tab: Tab, op: Op, env: Env, number: nat)
    requires op.OpAdd? || op.OpUpdate? || op.OpRemove? || op.OpVoid? || op.OpSend? || op.OpDiscard? || op.OpTicket?
    requires Apply(tab, op, env, number).Ok?
    ensures TendersKept(tab, Apply(tab, op, env, number).value)
  {
  }

  lemma {:induction false} TendersKeptByReads(tab: Tab, op: Op, env: Env, number: nat)
    requires op.OpCreateBill? || op.OpReadBill? || op.OpGuestCreate? || op.OpGuestRead? || op.OpRefund? || op.OpRaiseIntent?
    requires Apply(tab, op, env, number).Ok?
    ensures TendersKept(tab, Apply(tab, op, env, number).value)
  {
    if op.OpRaiseIntent? {
      var b := Refreshed(tab, env, tab.bill.value);
      var active := FirstActive(b.intents);
      if active.Some? {
        assert ExpireIfDue(b, active.value, env.now).value.tenders == b.tenders;
      }
    }
  }

  lemma {:induction false} WriteTendersGrow(tenders: seq<Tender>, inputs: seq<TenderInput>)
    requires WriteTenders(tenders, inputs).Ok?
    ensures tenders <= WriteTenders(tenders, inputs).value
  {
    if |inputs| > 0 {
      WriteTendersGrow(tenders, inputs[..|inputs| - 1]);
    }
  }

  lemma {:induction false} TendersKeptByFinalize(tab: Tab, env: Env, request: FinalizeRequest, number: nat)
    requires Finalize(tab, env, request, number).Ok?
    ensures TendersKept(tab, Finalize(tab, env, request, number).value)
  {
    WriteTendersGrow(Refreshed(tab, env, tab.bill.value).tenders, request.tenders);
  }

  lemma {:induction false} TendersKeptByShare(tab: Tab, env: Env, guest: Id, success: bool, sessionActive: bool, number: nat)
    requires PayShare(tab, env, guest, success, sessionActive, number).Ok?
    ensures TendersKept(tab, PayShare(tab, env, guest, success, sessionActive, number).value)
  {
    var b := GuestPayable(tab, env, sessionActive).value;
    assert b.tenders == tab.bill.value.tenders;
  }

  lemma {:induction false} TendersKeptByCard(b: Bill, env: Env)
    requires KioskCard(b, env).Ok?
    ensures b.tenders <= KioskCard(b, env).value.tenders
  {
  }

  lemma {:induction false} TendersKeptByWhole(tab: Tab, env: Env, kiosk: bool, success: bool, sessionActive: bool, number: nat)
    requires PayAll(tab, env, kiosk, success, sessionActive, number).Ok?
    ensures TendersKept(tab, PayAll(tab, env, kiosk, success, sessionActive, number).value)
  {
    var b := GuestPayable(tab, env, sessionActive).value;
    assert b.tenders == tab.bill.value.tenders;
    if success && kiosk {
      TendersKeptByCard(b, env);
    }
  }

  lemma {:induction false} TendersKeptByAll(tab: Tab, op: Op, env: Env, number: nat)
    requires Apply(tab, op, env, number).Ok?
    ensures TendersKept(tab, Apply(tab, op, env, number).value)
  {
    if op.OpFinalize? {
      TendersKeptByFinalize(tab, env, op.request, number);
    } else if op.OpPayShare? {
      TendersKeptByShare(tab, env, op.guest, op.success, op.sessionActive, number);
    } else if op.OpPayAll? {
      TendersKeptByWhole(tab, env, op.kiosk, op.success, op.sessionActive, number);
    } else if op.OpIntent? {
      IntentBillFrame(tab.bill.value, env, op.intent, op.intentAction);
    } else if op.OpAdd? || op.OpUpdate? || op.OpRemove? || op.OpVoid? || op.OpSend? || op.OpDiscard? || op.OpTicket? {
      TendersKeptByOrder(tab, op, env, number);
    } else {
      TendersKeptByReads(tab, op, env, number);
    }
  }

  /** Once any tender is on the bill, no run ever lowers the order's subtotal again. */
  lemma {:induction false} TenderProtectsForever(db: Db, events: seq<Event>, id: Id)
    requires id in db.tabs && db.tabs[id].bill.Some? && |db.tabs[id].bill.value.tenders| > 0
    ensures var db' := Run(db, events);
            && id in db'.tabs && db'.tabs[id].bill.Some?
            && db.tabs[id].bill.value.tenders <= db'.tabs[id].bill.value.tenders
            && Subtotal(db'.tabs[id].lines) >= Subtotal(db.tabs[id].lines)
  {
    if |events| > 0 {
      var before, e := Run(db, events[..|events| - 1]), events[|events| - 1];
      TenderProtectsForever(db, events[..|events| - 1], id);
      StepOnTab(before, e, id);
      if Step(before, e).tabs[id] != before.tabs[id] {
        PaymentsProtectSubtotal(before.tabs[id], e.action.op, EnvAt(before.clock, e), NextNumber(before, id));
        TendersKeptByAll(before.tabs[id], e.action.op, EnvAt(before.clock, e), NextNumber(before, id));
      }
    }
  }

  // ---- Shares never outgrow the bill --------------------------------------------------------------------

  /** What guests have paid is at most what the order now costs. */
  ghost predicate PaidWithin(tab: Tab, reg: Registration) {
    tab.bill.Some? && tab.bill.value.status == Open ==> Paid(tab.bill.value.shares) <= TotalFor(tab.country, reg, Subtotal(tab.lines))
  }

  lemma {:induction false} NothingPaid(shares: seq<Share>)
    requires forall s :: s in shares ==> !s.paid
    ensures Paid(shares) == 0
  {
    SumByMono(shares, PaidAmount, Zero);
    SumByMono(shares, Zero, PaidAmount);
    ZeroShares(shares);
  }

  function Zero(s: Share): int {
    0
  }

  lemma {:induction false} ZeroShares(shares: seq<Share>)
    ensures SumBy(shares, Zero) == 0
  {
    if |shares| > 0 {
      ZeroShares(shares[..|shares| - 1]);
    }
  }

  /** Line changes keep it: with a paid share the total cannot fall, without one nothing was paid. */
  lemma {:induction false} PaidWithinLines(tab: Tab, op: Op, env: Env, number: nat, clock: nat)
    requires TabOk(tab, clock) && PaidWithin(tab, env.reg) && Apply(tab, op, env, number).Ok?
    requires Apply(tab, op, env, number).value.bill == tab.bill && Apply(tab, op, env, number).value.country == tab.country
    ensures PaidWithin(Apply(tab, op, env, number).value, env.reg)
  {
    var tab' := Apply(tab, op, env, number).value;
    if tab.bill.Some? && tab.bill.value.status == Open {
      if exists s :: s in tab.bill.value.shares && s.paid {
        PaymentsProtectSubtotal(tab, op, env, number);
        TotalMonotone(tab.country, env.reg, Subtotal(tab.lines), Subtotal(tab'.lines));
      } else {
        NothingPaid(tab.bill.value.shares);
        TaxNonNegative(tab.country, env.reg, Subtotal(tab'.lines));
      }
    }
  }

  lemma {:induction false} PaidWithinCreate(tab: Tab, env: Env)
    ensures PaidWithin(tab, env.reg) && CreateBill(tab, env).Ok? ==> PaidWithin(CreateBill(tab, env).value, env.reg)
  {
    TaxNonNegative(tab.country, env.reg, Subtotal(tab.lines));
  }

  lemma {:induction false} PaidWithinRead(tab: Tab, env: Env)
    ensures PaidWithin(tab, env.reg) && ReadBill(tab, env).Ok? ==> PaidWithin(ReadBill(tab, env).value, env.reg)
  {
  }

  lemma {:induction false} PaidWithinRaise(tab: Tab, env: Env, amount: Qty, terminal: bool)
    ensures PaidWithin(tab, env.reg) && RaiseIntent(tab, env, amount, terminal).Ok? ==> PaidWithin(RaiseIntent(tab, env, amount, terminal).value, env.reg)
  {
    if RaiseIntent(tab, env, amount, terminal).Ok? {
      var b := Refreshed(tab, env, tab.bill.value);
      assert CreateIntent(b, amount, env.now, env.simulator, terminal).value.shares == b.shares;
    }
  }

  lemma {:induction false} PaidWithinGuestRead(tab: Tab, env: Env, clock: nat)
    requires TabOk(tab, clock) && PaidWithin(tab, env.reg) && GuestRead(tab, env).Ok?
    ensures PaidWithin(GuestRead(tab, env).value, env.reg)
  {
    var b := Refreshed(tab, env, tab.bill.value);
    if b.status == Open {
      SyncExact(tab.lines, Total(b), b.shares);
    }
  }

  lemma {:induction false} SharePaidWithin(tab: Tab, b: Bill, i: nat, reg: Registration)
    requires BillOk(tab.country, b) && b.status == Open && i < |b.shares| && !b.shares[i].paid
    requires SumBy(b.shares, ShareAmount) == TotalFor(tab.country, reg, Subtotal(tab.lines))
    ensures PaidWithin(tab.(bill := Some(WithSharePaid(b, i))), reg)
  {
    SharePaidOk(tab.country, b, i);
  }

  lemma {:induction false} CompletedWithin(tab: Tab, env: Env, b: Bill, number: nat)
    requires Complete(tab, env, b, number).Ok?
    ensures PaidWithin(Complete(tab, env, b, number).value, env.reg)
  {
  }

  lemma {:induction false} PaidWithinPayShare(tab: Tab, env: Env, guest: Id, success: bool, sessionActive: bool, number: nat, clock: nat)
    requires TabOk(tab, clock) && PaidWithin(tab, env.reg) && PayShare(tab, env, guest, success, sessionActive, number).Ok?
    ensures PaidWithin(PayShare(tab, env, guest, success, sessionActive, number).value, env.reg)
  {
    GuestPayableOk(tab, env, sessionActive, clock);
    var b := GuestPayable(tab, env, sessionActive).value;
    var i := IndexOfGuest(b.shares, guest).value;
    if success {
      var b' := WithSharePaid(b, i);
      if Outstanding(b'.shares) == 0 {
        CompletedWithin(tab, env, b', number);
      } else {
        SharePaidWithin(tab, b, i, env.reg);
      }
    }
  }

  /** A successful payment of the whole bill completes it. */
  lemma {:induction false} WholeCompletes(tab: Tab, env: Env, kiosk: bool, number: nat) returns (b: Bill)
    requires PayAll(tab, env, kiosk, true, true, number).Ok?
    ensures PayAll(tab, env, kiosk, true, true, number) == Complete(tab, env, b, number)
  {
    var payable := GuestPayable(tab, env, true).value;
    var paid := if kiosk then KioskCard(payable, env).value else payable.(tenders := payable.tenders + [Tender(UpiManual, Total(payable), None, None)]);
    b := paid.(shares := MarkAllPaid(paid.shares, |payable.tenders|));
  }

  lemma {:induction false} PaidWithinPayAll(tab: Tab, env: Env, kiosk: bool, success: bool, sessionActive: bool, number: nat, clock: nat)
    requires TabOk(tab, clock) && PaidWithin(tab, env.reg) && PayAll(tab, env, kiosk, success, sessionActive, number).Ok?
    ensures PaidWithin(PayAll(tab, env, kiosk, success, sessionActive, number).value, env.reg)
  {
    if success {
      var b := WholeCompletes(tab, env, kiosk, number);
      CompletedWithin(tab, env, b, number);
    } else {
      GuestPayableOk(tab, env, sessionActive, clock);
    }
  }

  /** A finalised bill has nothing left to share. */
  lemma {:induction false} PaidWithinFinalize(tab: Tab, env: Env, request: FinalizeRequest, number: nat)
    ensures Finalize(tab, env, request, number).Ok? ==> PaidWithin(Finalize(tab, env, request, number).value, env.reg)
  {
  }

  lemma {:induction false} PaidWithinOthers(tab: Tab, op: Op, env: Env, number: nat)
    requires PaidWithin(tab, env.reg) && Apply(tab, op, env, number).Ok?
    requires op.OpRefund? || op.OpDiscard?
    ensures PaidWithin(Apply(tab, op, env, number).value, env.reg)
  {
  }

  /** Every transaction under an unchanged registration keeps paid shares within the total. */
  lemma {:induction false} PaidWithinKept(tab: Tab, op: Op, env: Env, number: nat, clock: nat)
    requires TabOk(tab, clock) && clock <= env.now && PaidWithin(tab, env.reg) && Apply(tab, op, env, number).Ok?
    ensures PaidWithin(Apply(tab, op, env, number).value, env.reg)
  {
    match op
    case OpFinalize(request) => PaidWithinFinalize(tab, env, request, number);
    case OpRefund(_, _) => PaidWithinOthers(tab, op, env, number);
    case OpDiscard => PaidWithinOthers(tab, op, env, number);
    case OpCreateBill => PaidWithinCreate(tab, env);
    case OpReadBill => PaidWithinRead(tab, env);
    case OpRaiseIntent(amount, terminal) => PaidWithinRaise(tab, env, amount, terminal);
    case OpGuestRead => PaidWithinGuestRead(tab, env, clock);
    case OpGuestCreate(_) =>
      PaidWithinCreate(tab, env);
      CreateBillOk(tab, env, clock);
      PaidWithinGuestRead(CreateBill(tab, env).value, env, env.now);
    case OpPayShare(guest, success, sessionActive) => PaidWithinPayShare(tab, env, guest, success, sessionActive, number, clock);
    case OpPayAll(kiosk, success, sessionActive) => PaidWithinPayAll(tab, env, kiosk, success, sessionActive, number, clock);
    case OpIntent(i, action) => IntentBillFrame(tab.bill.value, env, i, action);
    case _ => PaidWithinLines(tab, op, env, number, clock);
  }

  ghost predicate AllPaidWithin(db: Db, reg: Registration) {
    forall id :: id in db.tabs ==> PaidWithin(db.tabs[id], reg)
  }

  ghost predicate FixedRegistration(events: seq<Event>, reg: Registration) {
    forall e :: e in events ==> e.reg == reg
  }

  lemma {:induction false} StepPaidWithin(db: Db, e: Event)
    requires DbOk(db) && AllPaidWithin(db, e.reg)
    ensures AllPaidWithin(Step(db, e), e.reg)
  {
    var db' := Step(db, e);
    forall id | id in db'.tabs
      ensures PaidWithin(db'.tabs[id], e.reg)
    {
      if id in db.tabs {
        StepOnTab(db, e, id);
        if db'.tabs[id] != db.tabs[id] {
          PaidWithinKept(db.tabs[id], e.action.op, EnvAt(db.clock, e), NextNumber(db, id), db.clock);
        }
      } else {
        NewHasNoBill(db, e, id);
      }
    }
  }

  lemma {:induction false} NewHasNoBill(db: Db, e: Event, id: Id)
    requires id !in db.tabs && id in Step(db, e).tabs
    ensures Step(db, e).tabs[id].bill == None
  {
    if e.action.PlaceOrder? {
      PlaceOk(db.country, e.action.outlet, EnvAt(db.clock, e), e.action.items);
    }
  }

  /** In every state a run under one registration reaches, guests have paid no more than their bill's total. */
  lemma {:induction false} RunPaidWithin(country: Country, events: seq<Event>, reg: Registration)
    requires FixedRegistration(events, reg)
    ensures DbOk(Run(Start(country), events)) && AllPaidWithin(Run(Start(country), events), reg)
  {
    StartOk(country);
    RunOk(Start(country), events);
    if |events| > 0 {
      var front := events[..|events| - 1];
      assert forall e :: e in front ==> e in events;
      assert events[|events| - 1] in events;
      RunPaidWithin(country, front, reg);
      StepPaidWithin(Run(Start(country), front), events[|events| - 1]);
    }
  }

  /**
   * Under one registration the negative-due refusal is never reached: a guest's read of an open bill
   * is refused exactly when something is owed and neither a share nor a guest's line exists to carry it.
   */
  lemma {:induction false} GuestReadRefusedIff(country: Country, events: seq<Event>, reg: Registration, id: Id, env: Env)
    requires FixedRegistration(events, reg) && env.reg == reg
    requires var db := Run(Start(country), events);
             id in db.tabs && db.tabs[id].bill.Some? && db.tabs[id].bill.value.status == Open
    ensures var tab := Run(Start(country), events).tabs[id];
            GuestRead(tab, env).Err? <==>
              TotalFor(tab.country, reg, Subtotal(tab.lines)) > 0 && tab.bill.value.shares == [] && Guests(tab.lines) == []
  {
    RunPaidWithin(country, events, reg);
    var db := Run(Start(country), events);
    var tab := db.tabs[id];
    assert TabOk(tab, db.clock) && PaidWithin(tab, reg);
    SyncNeeded(tab, env);
  }

  lemma {:induction false} SyncNeeded(tab: Tab, env: Env)
    requires tab.bill.Some? && BillOk(tab.country, tab.bill.value) && PaidWithin(tab, env.reg) && tab.bill.value.status == Open
    ensures GuestRead(tab, env).Err? <==>
              TotalFor(tab.country, env.reg, Subtotal(tab.lines)) > 0 && tab.bill.value.shares == [] && Guests(tab.lines) == []
  {
    var b := Refreshed(tab, env, tab.bill.value);
    RefreshedOk(tab.country, env.reg, Subtotal(tab.lines), tab.bill.value);
    SyncRefusedIff(tab.lines, Total(b), b.shares);
    if b.shares != [] {
      OutstandingIff(b.shares);
    } else if Guests(tab.lines) != [] {
      assert Guests(tab.lines)[0] in Guests(tab.lines) && !HasShare(b.shares, Guests(tab.lines)[0]);
    }
  }

  // ---- Paying the last share -------------------------------------------------------------------------------

  /** Exactly one share is open and it is the guest's. */
  ghost predicate LastShare(shares: seq<Share>, guest: Id) {
    && IndexOfGuest(shares, guest).Some?
    && !shares[IndexOfGuest(shares, guest).value].paid
    && forall k :: 0 <= k < |shares| && k != IndexOfGuest(shares, guest).value ==> shares[k].paid
  }

  lemma {:induction false} LastSharePaysOff(shares: seq<Share>, guest: Id, tender: nat)
    requires SharesOk(shares) && LastShare(shares, guest)
    ensures var i := IndexOfGuest(shares, guest).value;
            var shares' := shares[i := shares[i].(paid := true, tender := Some(tender))];
            && Outstanding(shares') == 0
            && Paid(shares') == SumBy(shares, ShareAmount)
  {
    var i := IndexOfGuest(shares, guest).value;
    var shares' := shares[i := shares[i].(paid := true, tender := Some(tender))];
    forall s | s in shares'
      ensures s.paid
    {
      var k :| 0 <= k < |shares'| && shares'[k] == s;
    }
    OutstandingIff(shares');
    AllPaid(shares');
    MarkPaid(shares, i, tender);
  }

  /**
   * Paying the last open share finalises the bill exactly when no live intent is waiting and nothing was
   * captured on the bill besides the guests' own payments.
   */
  lemma {:induction false} LastShareFinalizesIff(tab: Tab, env: Env, guest: Id, number: nat, clock: nat)
    requires TabOk(tab, clock) && clock <= env.now && GuestPayable(tab, env, true).Ok?
    requires LastShare(GuestPayable(tab, env, true).value.shares, guest)
    ensures var r := PayShare(tab, env, guest, true, true, number);
            && (r.Ok? <==> !Waiting(tab.bill.value, env.now) && SumBy(tab.bill.value.intents, CapturedAmount) == 0)
            && (r.Ok? ==> IsFinal(r.value) && r.value.bill.value.number == Some(number) && r.value.bill.value.roundOff == None)
  {
    GuestPayableOk(tab, env, true, clock);
    var b := GuestPayable(tab, env, true).value;
    var i := IndexOfGuest(b.shares, guest).value;
    SharePaidOk(tab.country, b, i);
    LastSharePaysOff(b.shares, guest, |b.tenders|);
    CompletesIff(tab, env, WithSharePaid(b, i), number);
  }

  /** The commit of a fully paid guest bill looks only at waiting intents and extra captures. */
  lemma {:induction false} CompletesIff(tab: Tab, env: Env, b: Bill, number: nat)
    requires b.status == Open && env.simulator && CashOf(b.tenders) == 0 && b.discount == None
    requires Tendered(b.tenders) == Total(b) + SumBy(b.intents, CapturedAmount)
    ensures Complete(tab, env, b, number).Ok? <==> !Waiting(b, env.now) && SumBy(b.intents, CapturedAmount) == 0
    ensures Complete(tab, env, b, number).Ok? ==>
              var tab' := Complete(tab, env, b, number).value;
              IsFinal(tab') && tab'.bill.value.number == Some(number) && tab'.bill.value.roundOff == None
  {
  }
}
