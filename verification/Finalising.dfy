/** A staff finalise: exactly when it goes through, and exactly what it stores. */
module Finalising {
  import opened Prelude
  import opened Rounding
  import opened Tax
  import opened Orders
  import opened Bills
  import opened Payments
  import opened Settlement
  import opened Tabs
  import opened TabInvariant

  /** One row per entry of the cashier, in order. */
  function Rows(inputs: seq<TenderInput>): seq<Tender> {
    seq(|inputs|, i requires 0 <= i < |inputs| => Tender(inputs[i].mode, inputs[i].amount, inputs[i].handedOver, None))
  }

  /** Every entry is cash, manual UPI or external, and only cash records at least its amount as handed over. */
  ghost predicate ManualOnly(inputs: seq<TenderInput>) {
    forall i :: 0 <= i < |inputs| ==>
      && (inputs[i].mode == Cash || inputs[i].mode == UpiManual || inputs[i].mode == External)
      && (inputs[i].handedOver.Some? ==> inputs[i].mode == Cash && inputs[i].amount <= inputs[i].handedOver.value)
  }

  lemma {:induction false} WriteTendersIff(tenders: seq<Tender>, inputs: seq<TenderInput>)
    ensures WriteTenders(tenders, inputs).Ok? <==> ManualOnly(inputs)
    ensures WriteTenders(tenders, inputs).Ok? ==> WriteTenders(tenders, inputs).value == tenders + Rows(inputs)
  {
    if |inputs| > 0 {
      var front, last := inputs[..|inputs| - 1], inputs[|inputs| - 1];
      WriteTendersIff(tenders, front);
      assert forall i :: 0 <= i < |front| ==> front[i] == inputs[i];
      assert Rows(inputs) == Rows(front) + [Tender(last.mode, last.amount, last.handedOver, None)];
      if WriteTenders(tenders, front).Ok? {
        assert tenders + Rows(inputs) == (tenders + Rows(front)) + [Tender(last.mode, last.amount, last.handedOver, None)];
      }
    }
  }

  /** A discount over a fifth of the subtotal has a manager's approval, and cash has an open shift. */
  ghost predicate Permitted(subtotal: nat, request: FinalizeRequest) {
    && (request.discount.Some? && 5 * request.discount.value > subtotal ==> request.approval == PinApproved)
    && ((exists t :: t in request.tenders && t.mode == Cash) ==> request.shiftOpen)
  }

  lemma {:induction false} GateIff(subtotal: nat, request: FinalizeRequest)
    ensures Gate(subtotal, request).Ok? <==> Permitted(subtotal, request)
  {
    DivBounds(subtotal * DISCOUNT_THRESHOLD_PERCENT, 100);
  }

  /** The tenders settle a total: exactly, or off by the rounding of their cash to the country's unit. */
  ghost predicate Settles(country: Country, total: int, tendered: int, cash: int) {
    var unit := if country == IN then 100 else 5;
    var off := tendered - total;
    off == 0 || (0 < cash && off < cash && cash % unit == 0 && -unit < 2 * off <= unit)
  }

  lemma {:induction false} TenderCheckSettles(country: Country, total: int, tendered: int, cash: int)
    requires 0 <= cash
    ensures TenderCheck(country, total, tendered, cash).Ok? <==> Settles(country, total, tendered, cash)
    ensures Settles(country, total, tendered, cash) ==>
      TenderCheck(country, total, tendered, cash) == Ok(if tendered == total then None else Some(tendered - total))
  {
    var off := tendered - total;
    if off != 0 && cash > off {
      CashRoundOffExact(cash - off, country, off);
    }
  }

  ghost predicate NothingWaits(b: Bill, now: nat) {
    forall i :: 0 <= i < |b.intents| && (b.intents[i].status == Created || b.intents[i].status == Pending) ==> b.intents[i].expiresAt <= now
  }

  lemma {:induction false} WaitingIff(b: Bill, now: nat)
    ensures Waiting(b, now) <==> !NothingWaits(b, now)
  {
    if Waiting(b, now) {
      var x :| x in b.intents && Active(x) && x.expiresAt > now;
      var i :| 0 <= i < |b.intents| && b.intents[i] == x;
    }
    if !NothingWaits(b, now) {
      var i :| 0 <= i < |b.intents| && (b.intents[i].status == Created || b.intents[i].status == Pending) && b.intents[i].expiresAt > now;
      assert b.intents[i] in b.intents;
    }
  }

  /** No simulated card payment is counted while the simulator is off. */
  ghost predicate RealMoney(simulator: bool, tenders: seq<Tender>, intents: seq<Intent>) {
    simulator || forall k :: 0 <= k < |tenders| && tenders[k].intent.Some? && tenders[k].intent.value < |intents| ==> intents[tenders[k].intent.value].provider != Simulated
  }

  lemma {:induction false} RealMoneyIff(simulator: bool, b: Bill)
    ensures RealMoney(simulator, b.tenders, b.intents) <==> simulator || !HasSimulatedTender(b)
  {
    if HasSimulatedTender(b) {
      var t :| t in b.tenders && t.intent.Some? && t.intent.value < |b.intents| && b.intents[t.intent.value].provider == Simulated;
      var k :| 0 <= k < |b.tenders| && b.tenders[k] == t;
    }
    if !RealMoney(simulator, b.tenders, b.intents) {
      var k :| 0 <= k < |b.tenders| && b.tenders[k].intent.Some? && b.tenders[k].intent.value < |b.intents| && b.intents[b.tenders[k].intent.value].provider == Simulated;
      assert b.tenders[k] in b.tenders;
    }
  }

  // ---- The commit ------------------------------------------------------------------------------------

  function Off(discount: Option<nat>): nat {
    if discount.Some? then discount.value else 0
  }

  /** The bill's stored amounts are the ones of its subtotal under the registration in force. */
  ghost predicate UpToDate(country: Country, reg: Registration, b: Bill) {
    && b.status == Open && FlagCoherent(country, b)
    && b.tax == ComputeTax(country, reg, b.subtotal).tax && b.split == ComputeTax(country, reg, b.subtotal).split
  }

  /** What a commit stores: the discount, the tax on what is left, the round-off its tenders leave, the number and the time. */
  ghost predicate Stores(country: Country, reg: Registration, b: Bill, b': Bill, discount: Option<nat>, number: nat, now: nat)
    requires Off(discount) <= b.subtotal
  {
    var taxed := ComputeTax(country, reg, b.subtotal - Off(discount));
    var total := TotalFor(country, reg, b.subtotal - Off(discount));
    && b'.status == Finalized && b'.number == Some(number) && b'.finalizedAt == Some(now)
    && b'.discount == discount
    && b'.tax == taxed.tax && b'.split == taxed.split
    && Total(b') == total
    && b'.roundOff == (if Tendered(b.tenders) == total then None else Some(Tendered(b.tenders) - total))
    && b'.subtotal == b.subtotal && b'.tenders == b.tenders && b'.intents == b.intents && b'.shares == b.shares && b'.notes == b.notes
  }

  lemma {:induction false} CommitTotal(country: Country, reg: Registration, b: Bill, d: nat)
    requires UpToDate(country, reg, b) && d <= b.subtotal
    ensures var tax := if d > 0 then TaxOn(country, reg, b.subtotal - d) else b.tax;
            tax == ComputeTax(country, reg, b.subtotal - d).tax && Payable(b.subtotal, tax, d, b.inclusive) == TotalFor(country, reg, b.subtotal - d)
  {
    DiscountedTotal(country, reg, b, d);
  }

  /** A commit goes through exactly when nothing waits, the money is real, the discount fits and the tenders settle the discounted total. */
  ghost predicate Committable(country: Country, reg: Registration, simulator: bool, now: nat, b: Bill, discount: Option<nat>) {
    && NothingWaits(b, now)
    && RealMoney(simulator, b.tenders, b.intents)
    && Off(discount) <= b.subtotal
    && Settles(country, TotalFor(country, reg, b.subtotal - Off(discount)), Tendered(b.tenders), CashOf(b.tenders))
  }

  lemma {:induction false} CommitExact(country: Country, reg: Registration, simulator: bool, now: nat, b: Bill, discount: Option<nat>, number: nat)
    requires UpToDate(country, reg, b) && 0 <= CashOf(b.tenders)
    ensures var r := Commit(country, reg, simulator, now, b, discount, number);
            && (r.Ok? <==> Committable(country, reg, simulator, now, b, discount))
            && (r.Ok? ==> Off(discount) <= b.subtotal && Stores(country, reg, b, r.value, discount, number, now))
  {
    WaitingIff(b, now);
    RealMoneyIff(simulator, b);
    var d := Off(discount);
    if d <= b.subtotal {
      CommitTotal(country, reg, b, d);
      var total := TotalFor(country, reg, b.subtotal - d);
      CommitParts(country, reg, simulator, now, b, discount, number, total);
      TenderCheckSettles(country, total, Tendered(b.tenders), CashOf(b.tenders));
    }
  }

  lemma {:induction false} CommitParts(country: Country, reg: Registration, simulator: bool, now: nat, b: Bill, discount: Option<nat>, number: nat, total: int)
    requires b.status == Open && Off(discount) <= b.subtotal && b.split == ComputeTax(country, reg, b.subtotal).split
    requires var tax := if Off(discount) > 0 then TaxOn(country, reg, b.subtotal - Off(discount)) else b.tax;
             tax == ComputeTax(country, reg, b.subtotal - Off(discount)).tax && Payable(b.subtotal, tax, Off(discount), b.inclusive) == total
    ensures var r := Commit(country, reg, simulator, now, b, discount, number);
            var check := TenderCheck(country, total, Tendered(b.tenders), CashOf(b.tenders));
            var taxed := ComputeTax(country, reg, b.subtotal - Off(discount));
            && (r.Ok? <==> !Waiting(b, now) && (simulator || !HasSimulatedTender(b)) && check.Ok?)
            && (r.Ok? ==> taxed.tax >= 0 && r.value == b.(tax := taxed.tax, split := taxed.split, discount := discount, roundOff := check.value, number := Some(number), status := Finalized, finalizedAt := Some(now)))
  {
  }

  // ---- The staff request ---------------------------------------------------------------------------------

  lemma {:induction false} RefreshedUpToDate(tab: Tab, env: Env)
    requires tab.bill.Some? && BillOk(tab.country, tab.bill.value) && tab.bill.value.status == Open
    ensures var b := Refreshed(tab, env, tab.bill.value);
            && UpToDate(tab.country, env.reg, b) && b.subtotal == Subtotal(tab.lines)
            && b.tenders == tab.bill.value.tenders && b.intents == tab.bill.value.intents && b.shares == tab.bill.value.shares && b.notes == tab.bill.value.notes
  {
    RefreshTotal(tab.country, env.reg, Subtotal(tab.lines), tab.bill.value);
    RefreshTotalIff(tab.country, env.reg, Subtotal(tab.lines), tab.bill.value);
  }

  lemma {:induction false} CashNonNegative(tenders: seq<Tender>, inputs: seq<TenderInput>)
    requires forall t :: t in tenders ==> 0 <= t.amount
    ensures 0 <= CashOf(tenders + Rows(inputs))
  {
    forall t | t in tenders + Rows(inputs)
      ensures 0 <= CashAmount(t)
    {
      if t !in tenders {
        var i :| 0 <= i < |Rows(inputs)| && Rows(inputs)[i] == t;
      }
    }
    SumByNonNegative(tenders + Rows(inputs), CashAmount);
  }

  /** The refreshed bill with the cashier's rows behind the tenders it had. */
  function Entered(tab: Tab, env: Env, request: FinalizeRequest): Bill
    requires tab.bill.Some?
  {
    var b := Refreshed(tab, env, tab.bill.value);
    b.(tenders := b.tenders + Rows(request.tenders))
  }

  ghost predicate Acceptable(tab: Tab, env: Env, request: FinalizeRequest)
    requires tab.bill.Some?
  {
    && Permitted(Subtotal(tab.lines), request)
    && ManualOnly(request.tenders)
    && Committable(tab.country, env.reg, env.simulator, env.now, Entered(tab, env, request), request.discount)
  }

  lemma {:induction false} EnteredReady(tab: Tab, env: Env, request: FinalizeRequest, clock: nat)
    requires TabOk(tab, clock) && tab.bill.Some? && tab.bill.value.status == Open
    ensures var b := Entered(tab, env, request);
            && UpToDate(tab.country, env.reg, b) && 0 <= CashOf(b.tenders)
            && b.subtotal == Subtotal(tab.lines) && b.tenders == tab.bill.value.tenders + Rows(request.tenders)
            && b.intents == tab.bill.value.intents && b.shares == tab.bill.value.shares && b.notes == tab.bill.value.notes
  {
    var was := tab.bill.value;
    assert BillIntentsOk(was);
    forall t | t in was.tenders
      ensures 0 <= t.amount
    {
      assert TenderOk(was.intents, t);
    }
    RefreshedUpToDate(tab, env);
    CashNonNegative(was.tenders, request.tenders);
  }

  /** What the order and its bill become. */
  ghost predicate Finalised(tab: Tab, tab': Tab, env: Env, request: FinalizeRequest, number: nat)
    requires tab.bill.Some? && Off(request.discount) <= Entered(tab, env, request).subtotal
  {
    && tab'.bill.Some? && tab'.state == Closed && tab'.lines == tab.lines
    && Stores(tab.country, env.reg, Entered(tab, env, request), tab'.bill.value, request.discount, number, env.now)
  }

  lemma {:induction false} FinalizeIs(tab: Tab, env: Env, request: FinalizeRequest, number: nat)
    requires tab.bill.Some? && tab.bill.value.status == Open
    ensures var b := Entered(tab, env, request);
            var done := Commit(tab.country, env.reg, env.simulator, env.now, b, request.discount, number);
            && (Finalize(tab, env, request, number).Ok? <==> Gate(b.subtotal, request).Ok? && ManualOnly(request.tenders) && done.Ok?)
            && (Finalize(tab, env, request, number).Ok? ==> Finalize(tab, env, request, number).value == CloseWith(tab, env, done.value))
  {
    WriteTendersIff(Refreshed(tab, env, tab.bill.value).tenders, request.tenders);
  }

  /**
   * A staff finalise of an open bill goes through exactly when the gates are met, every entry is a manual tender, no
   * intent waits, no simulated payment counts with the simulator off, the discount is within the subtotal and the tenders
   * settle the total computed on the discounted value; it then stores exactly that discount, tax, total and those tenders.
   */
  lemma {:induction false} FinalizeExact(tab: Tab, env: Env, request: FinalizeRequest, number: nat, clock: nat)
    requires TabOk(tab, clock) && tab.bill.Some? && tab.bill.value.status == Open
    ensures var r := Finalize(tab, env, request, number);
            && (r.Ok? <==> Acceptable(tab, env, request))
            && (r.Ok? ==> Off(request.discount) <= Entered(tab, env, request).subtotal && Finalised(tab, r.value, env, request, number))
  {
    EnteredReady(tab, env, request, clock);
    var b := Entered(tab, env, request);
    FinalizeIs(tab, env, request, number);
    GateIff(b.subtotal, request);
    CommitExact(tab.country, env.reg, env.simulator, env.now, b, request.discount, number);
  }
}
