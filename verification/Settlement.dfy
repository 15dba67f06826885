/** Finalising a bill: the tender check with its cash rounding, and the staff request in front of it. */
module Settlement {
  import opened Prelude
  import opened Rounding
  import opened Tax
  import opened Bills
  import opened Payments

  // ---- Cash rounding ---------------------------------------------------------------------------

  /** Cash settles to the nearest rupee or five cents. */
  function CashUnit(country: Country): Qty {
    if country == IN then 100 else 5
  }

  /** The adjustment to add to a cash amount that is due. */
  function CashRoundOff(due: int, country: Country): int {
    if due <= 0 then 0 else
      var unit: int := CashUnit(country);
      TruncDiv(due * 2 + unit, 2 * unit) * unit - due
  }

  /** r takes a due amount to its nearest whole cash unit, halves up. */
  ghost predicate RoundsCash(due: int, country: Country, r: int) {
    var unit: int := CashUnit(country);
    (due + r) % unit == 0 && -unit < 2 * r <= unit
  }

  /** The round-off is the only adjustment that rounds a positive due to the nearest unit, halves up. */
  lemma {:induction false} CashRoundOffExact(due: int, country: Country, r: int)
    requires due > 0
    ensures RoundsCash(due, country, CashRoundOff(due, country))
    ensures RoundsCash(due, country, r) ==> r == CashRoundOff(due, country)
    ensures 0 <= due + CashRoundOff(due, country)
  {
    var unit: int := CashUnit(country);
    var q := (due * 2 + unit) / (2 * unit);
    DivBounds(due * 2 + unit, 2 * unit);
    assert (2 * unit) * q == 2 * (q * unit);
    WholeUnits(q, unit);
    if RoundsCash(due, country, r) {
      var k := (due + r) / unit;
      assert due + r == unit * k;
      assert unit * q == q * unit;
      SameMultiple(unit, k, q);
    }
  }

  lemma {:induction false} WholeUnits(q: int, unit: int)
    requires unit == 100 || unit == 5
    ensures (q * unit) % unit == 0
  {
  }

  // ---- The tender check ------------------------------------------------------------------------

  function CashOf(tenders: seq<Tender>): int {
    SumBy(tenders, CashAmount)
  }

  /** The round-off to store: none when the tenders match exactly, else the cash share's rounding. */
  function TenderCheck(country: Country, total: int, tendered: int, cash: int): Result<Option<int>> {
    if tendered == total then Ok(None) else
      var roundOff := if cash > 0 then CashRoundOff(total - (tendered - cash), country) else 0;
      if roundOff == 0 || tendered != total + roundOff then Err(TenderMismatch) else Ok(Some(roundOff))
  }

  /** Tenders cover the total to the unit, or only the cash part is off by its rounding. */
  ghost predicate Covers(country: Country, total: int, tendered: int, cash: int, roundOff: Option<int>) {
    && tendered == total + OrZero(roundOff)
    && (roundOff.Some? ==>
          && roundOff.value != 0
          && cash > 0
          && cash % CashUnit(country) == 0
          && RoundsCash(cash - roundOff.value, country, roundOff.value))
  }

  /** The check passes with a round-off exactly when the tenders cover the total that way. */
  lemma {:induction false} TenderCheckIff(country: Country, total: int, tendered: int, cash: int, roundOff: Option<int>)
    requires 0 <= cash
    requires roundOff.Some? ==> cash - roundOff.value > 0
    ensures Covers(country, total, tendered, cash, roundOff) <==> TenderCheck(country, total, tendered, cash) == Ok(roundOff)
  {
    var due := total - (tendered - cash);
    if due > 0 {
      CashRoundOffExact(due, country, CashRoundOff(due, country));
    }
    if roundOff.Some? {
      CashRoundOffExact(cash - roundOff.value, country, roundOff.value);
    }
  }

  lemma {:induction false} TenderCheckCovers(country: Country, total: int, tendered: int, cash: int)
    requires TenderCheck(country, total, tendered, cash).Ok?
    ensures Covers(country, total, tendered, cash, TenderCheck(country, total, tendered, cash).value)
  {
    var due := total - (tendered - cash);
    if tendered != total && due > 0 {
      CashRoundOffExact(due, country, CashRoundOff(due, country));
    }
  }

  // ---- Committing ----------------------------------------------------------------------------------

  predicate Waiting(b: Bill, now: nat) {
    exists i :: i in b.intents && Active(i) && i.expiresAt > now
  }

  predicate HasSimulatedTender(b: Bill) {
    exists t :: t in b.tenders && t.intent.Some? && t.intent.value < |b.intents| && b.intents[t.intent.value].provider == Simulated
  }

  /** Validates everything first; only then is the bill number reserved and the bill closed. */
  function Commit(country: Country, reg: Registration, simulator: bool, now: nat, b: Bill, discount: Option<nat>, number: nat): Result<Bill> {
    if b.status == Finalized then Err(AlreadyFinalized)
    else if Waiting(b, now) then Err(PaymentPending)
    else if !simulator && HasSimulatedTender(b) then Err(SimulatedTender)
    else
      var discountMinor := if discount.Some? then discount.value else 0;
      if discountMinor > b.subtotal then Err(ValidationFailed)
      else
        var tax := if discountMinor > 0 then TaxOn(country, reg, b.subtotal - discountMinor) else b.tax;
        var split := if discountMinor > 0 then ComputeTax(country, reg, b.subtotal - discountMinor).split else b.split;
        var total := Payable(b.subtotal, tax, discountMinor, b.inclusive);
        var roundOff :- TenderCheck(country, total, Tendered(b.tenders), CashOf(b.tenders));
        Ok(b.(tax := tax, split := split, discount := discount, roundOff := roundOff, number := Some(number), status := Finalized, finalizedAt := Some(now)))
  }

  /** A finalised bill: numbered, discounted within its subtotal, and covered by its tenders. */
  ghost predicate Settled(country: Country, b: Bill) {
    && b.number.Some? && b.finalizedAt.Some?
    && DiscountOf(b) <= b.subtotal
    && Covers(country, Total(b), Tendered(b.tenders), CashOf(b.tenders), b.roundOff)
  }

  /** An open bill: nothing decided yet, and its tenders are exactly the paid shares and the captures. */
  ghost predicate Unsettled(b: Bill) {
    && b.number.None? && b.finalizedAt.None? && b.discount.None? && b.roundOff.None? && b.notes == []
    && Tendered(b.tenders) == Paid(b.shares) + SumBy(b.intents, CapturedAmount)
    && CashOf(b.tenders) == 0
  }

  ghost predicate MoneyOk(country: Country, b: Bill) {
    && (b.status == Finalized ==> Settled(country, b))
    && (b.status == Open ==> Unsettled(b))
    && (b.subtotal == 0 ==> b.tax == 0)
    && FlagCoherent(country, b)
    && BillIntentsOk(b)
  }

  lemma {:induction false} CommitSettles(country: Country, reg: Registration, simulator: bool, now: nat, b: Bill, discount: Option<nat>, number: nat)
    requires Commit(country, reg, simulator, now, b, discount, number).Ok?
    requires BillIntentsOk(b) && FlagCoherent(country, b) && (b.subtotal == 0 ==> b.tax == 0)
    requires b.tax == ComputeTax(country, reg, b.subtotal).tax
    ensures MoneyOk(country, Commit(country, reg, simulator, now, b, discount, number).value)
  {
    var discountMinor := if discount.Some? then discount.value else 0;
    var tax := if discountMinor > 0 then TaxOn(country, reg, b.subtotal - discountMinor) else b.tax;
    var total := Payable(b.subtotal, tax, discountMinor, b.inclusive);
    TenderCheckCovers(country, total, Tendered(b.tenders), CashOf(b.tenders));
    if discountMinor > 0 {
      TaxMonotone(country, reg, b.subtotal - discountMinor, b.subtotal);
      TaxNonNegative(country, reg, b.subtotal - discountMinor);
    }
    var b' := Commit(country, reg, simulator, now, b, discount, number).value;
    forall i | 0 <= i < |b.intents|
      ensures IntentOk(b'.status, b'.tenders, b'.intents, i)
    {
      assert IntentOk(b.status, b.tenders, b.intents, i);
    }
  }

  /** Even a kept row with a stale inclusion flag settles at the discounted total computed from scratch. */
  lemma {:induction false} DiscountedTotal(country: Country, reg: Registration, b: Bill, discount: nat)
    requires FlagCoherent(country, b) && discount <= b.subtotal && b.tax == ComputeTax(country, reg, b.subtotal).tax
    ensures Payable(b.subtotal, TaxOn(country, reg, b.subtotal - discount), discount, b.inclusive) == TotalFor(country, reg, b.subtotal - discount)
  {
    TaxMonotone(country, reg, b.subtotal - discount, b.subtotal);
    TaxNonNegative(country, reg, b.subtotal - discount);
  }

  // ---- The staff request ---------------------------------------------------------------------------

  /** What the cashier enters; electronic methods are never postable. */
  datatype TenderInput = TenderInput(mode: Method, amount: Qty, handedOver: Option<nat>)

  datatype Approval = NoPin | PinRefused | PinApproved

  datatype FinalizeRequest = FinalizeRequest(tenders: seq<TenderInput>, discount: Option<nat>, approval: Approval, shiftOpen: bool)

  const DISCOUNT_THRESHOLD_PERCENT := 20

  predicate AcceptableTender(t: TenderInput) {
    !t.mode.Electronic() && (t.handedOver.Some? ==> t.mode == Cash && t.handedOver.value >= t.amount)
  }

  /** The tender rows after the cashier's entries, refused at the first bad one. */
  function WriteTenders(tenders: seq<Tender>, inputs: seq<TenderInput>): Result<seq<Tender>> {
    if |inputs| == 0 then Ok(tenders) else
      var front :- WriteTenders(tenders, inputs[..|inputs| - 1]);
      var t := inputs[|inputs| - 1];
      if !AcceptableTender(t) then Err(ValidationFailed)
      else Ok(front + [Tender(t.mode, t.amount, t.handedOver, None)])
  }

  /** The manager gate and the cash-drawer gate, before any tender is written. */
  function Gate(subtotal: nat, request: FinalizeRequest): Result<()> {
    if request.discount.Some? && request.discount.value > subtotal * DISCOUNT_THRESHOLD_PERCENT / 100 && request.approval == NoPin then Err(ManagerPinRequired)
    else if request.discount.Some? && request.discount.value > subtotal * DISCOUNT_THRESHOLD_PERCENT / 100 && request.approval == PinRefused then Err(Forbidden)
    else if (exists t :: t in request.tenders && t.mode == Cash) && !request.shiftOpen then Err(ShiftNotOpen)
    else Ok(())
  }

  /** finalize on a refreshed bill: gates, tenders, then the shared commit. */
  function StaffFinalize(country: Country, reg: Registration, simulator: bool, now: nat, b: Bill, request: FinalizeRequest, number: nat): Result<Bill> {
    if b.status == Finalized then Err(AlreadyFinalized) else
      var _ :- Gate(b.subtotal, request);
      var tenders :- WriteTenders(b.tenders, request.tenders);
      Commit(country, reg, simulator, now, b.(tenders := tenders), request.discount, number)
  }

  lemma {:induction false} WriteTendersOk(b: Bill, inputs: seq<TenderInput>)
    requires BillIntentsOk(b) && WriteTenders(b.tenders, inputs).Ok?
    ensures BillIntentsOk(b.(tenders := WriteTenders(b.tenders, inputs).value))
    ensures b.tenders <= WriteTenders(b.tenders, inputs).value
    ensures |WriteTenders(b.tenders, inputs).value| == |b.tenders| + |inputs|
  {
    if |inputs| == 0 {
      assert b.(tenders := b.tenders) == b;
    } else {
      var front := WriteTenders(b.tenders, inputs[..|inputs| - 1]).value;
      WriteTendersOk(b, inputs[..|inputs| - 1]);
      var input := inputs[|inputs| - 1];
      ManualTenderOk(b.(tenders := front), Tender(input.mode, input.amount, input.handedOver, None));
    }
  }

  /** A manual tender touches no intent. */
  lemma {:induction false} ManualTenderOk(b: Bill, t: Tender)
    requires BillIntentsOk(b) && !t.mode.Electronic() && t.intent.None? && 0 <= t.amount
    ensures BillIntentsOk(b.(tenders := b.tenders + [t]))
  {
    var tenders' := b.tenders + [t];
    SumBySnoc(b.tenders, t, ElectronicAmount);
    forall i | 0 <= i < |b.intents|
      ensures IntentOk(b.status, tenders', b.intents, i)
    {
      SumBySnoc(b.tenders, t, Names(i));
      assert IntentOk(b.status, b.tenders, b.intents, i);
    }
  }

  // ---- The loops ----------------------------------------------------------------------------------------

  lemma {:induction false} WriteTendersRefused(tenders: seq<Tender>, inputs: seq<TenderInput>, i: nat)
    requires i <= |inputs| && WriteTenders(tenders, inputs[..i]).Err?
    ensures WriteTenders(tenders, inputs) == WriteTenders(tenders, inputs[..i])
    decreases |inputs|
  {
    if i == |inputs| {
      assert inputs[..i] == inputs;
    } else {
      assert inputs[..|inputs| - 1][..i] == inputs[..i];
      WriteTendersRefused(tenders, inputs[..|inputs| - 1], i);
    }
  }

  method InsertTenders(tenders: seq<Tender>, inputs: seq<TenderInput>) returns (r: Result<seq<Tender>>)
    ensures r == WriteTenders(tenders, inputs)
  {
    var rows := tenders;
    for i := 0 to |inputs|
      invariant WriteTenders(tenders, inputs[..i]) == Ok(rows)
    {
      assert inputs[..i + 1][..i] == inputs[..i];
      var t := inputs[i];
      if !AcceptableTender(t) {
        WriteTendersRefused(tenders, inputs, i + 1);
        return Err(ValidationFailed);
      }
      rows := rows + [Tender(t.mode, t.amount, t.handedOver, None)];
    }
    assert inputs[..|inputs|] == inputs;
    r := Ok(rows);
  }

  method TenderTotals(tenders: seq<Tender>) returns (tendered: int, cash: int)
    ensures tendered == Tendered(tenders) && cash == CashOf(tenders)
  {
    tendered, cash := 0, 0;
    for i := 0 to |tenders|
      invariant tendered == Tendered(tenders[..i]) && cash == CashOf(tenders[..i])
    {
      assert tenders[..i + 1][..i] == tenders[..i];
      tendered := tendered + tenders[i].amount;
      if tenders[i].mode == Cash {
        cash := cash + tenders[i].amount;
      }
    }
    assert tenders[..|tenders|] == tenders;
  }

  /** Decides whether the tenders settle the total, and with which round-off. */
  method CheckTenders(country: Country, total: int, tenders: seq<Tender>) returns (r: Result<Option<int>>)
    ensures r == TenderCheck(country, total, Tendered(tenders), CashOf(tenders))
  {
    var tendered, cash := TenderTotals(tenders);
    var roundOff: Option<int> := None;
    if tendered != total {
      var cashRoundOff := if cash > 0 then CashRoundOff(total - (tendered - cash), country) else 0;
      if cashRoundOff == 0 || tendered != total + cashRoundOff {
        return Err(TenderMismatch);
      }
      roundOff := Some(cashRoundOff);
    }
    r := Ok(roundOff);
  }

  /** commitFinalize on the bill row: validate, check the tenders, store the settlement. */
  method CommitFinalize(country: Country, reg: Registration, simulator: bool, now: nat, b: Bill, discount: Option<nat>, number: nat) returns (r: Result<Bill>)
    ensures r == Commit(country, reg, simulator, now, b, discount, number)
  {
    if b.status == Finalized {
      return Err(AlreadyFinalized);
    }
    if Waiting(b, now) {
      return Err(PaymentPending);
    }
    if !simulator && HasSimulatedTender(b) {
      return Err(SimulatedTender);
    }
    var discountMinor := if discount.Some? then discount.value else 0;
    if discountMinor > b.subtotal {
      return Err(ValidationFailed);
    }
    var tax, split := b.tax, b.split;
    if discountMinor > 0 {
      tax, split := TaxOn(country, reg, b.subtotal - discountMinor), ComputeTax(country, reg, b.subtotal - discountMinor).split;
    }
    var total := Payable(b.subtotal, tax, discountMinor, b.inclusive);
    var roundOff := CheckTenders(country, total, b.tenders);
    if roundOff.Err? {
      return Err(roundOff.error);
    }
    r := Ok(b.(tax := tax, split := split, discount := discount, roundOff := roundOff.value, number := Some(number), status := Finalized, finalizedAt := Some(now)));
  }
}
