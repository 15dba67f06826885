/** Bills and the money on them: tenders, payment intents, guest shares, credit notes. */
module Bills {
  import opened Prelude
  import opened Tax
  import opened Refunds

  datatype Method = Cash | UpiManual | External | UpiIntent | UpiQr | CardOnline | CardTerminal {
    /** Written only by a confirmed payment intent. */
    predicate Electronic() {
      UpiIntent? || UpiQr? || CardOnline? || CardTerminal?
    }
  }

  /** One payment; cash may record what was handed over, an electronic one names its intent. */
  datatype Tender = Tender(mode: Method, amount: int, handedOver: Option<nat>, intent: Option<nat>)

  datatype IntentStatus = Created | Pending | Succeeded | Failed | Expired | Cancelled

  datatype Provider = Simulated | Razorpay

  datatype Reason = NoReason | LateCaptureRefundDue | TimedOut | Declined | CancelledByStaff

  /** A payment intent is never deleted, so its place in the bill's list identifies it. */
  datatype Intent = Intent(rail: Method, provider: Provider, amount: int, status: IntentStatus, reason: Reason, expiresAt: nat)

  datatype Share = Share(guest: Id, amount: int, paid: bool, tender: Option<nat>)

  datatype BillStatus = Open | Finalized

  datatype Bill = Bill(
    subtotal: nat,
    tax: nat,
    split: Option<Split>,
    inclusive: bool,
    discount: Option<nat>,
    roundOff: Option<int>,
    number: Option<nat>,
    status: BillStatus,
    finalizedAt: Option<nat>,
    tenders: seq<Tender>,
    intents: seq<Intent>,
    shares: seq<Share>,
    notes: seq<Note>)

  function OrZero(amount: Option<int>): int {
    if amount.Some? then amount.value else 0
  }

  function DiscountOf(b: Bill): nat {
    if b.discount.Some? then b.discount.value else 0
  }

  /** The customer-payable total of the stored amounts. */
  function Total(b: Bill): int {
    Payable(b.subtotal, b.tax, DiscountOf(b), b.inclusive)
  }

  /** What a refund prorates over; finalising refuses a discount above the subtotal. */
  function FiguresOf(b: Bill): Figures {
    Figures(b.subtotal, if DiscountOf(b) <= b.subtotal then b.subtotal - DiscountOf(b) else 0, b.tax)
  }

  /** A credit note's worth to the customer: an inclusive subtotal already contains its tax. */
  function NoteWorth(inclusive: bool): Note -> int {
    (n: Note) => if inclusive then n.subtotal else n.subtotal + n.tax
  }

  // ---- Sums over the money rows ----------------------------------------------------------------

  function TenderAmount(t: Tender): int {
    t.amount
  }

  function CashAmount(t: Tender): int {
    if t.mode == Cash then t.amount else 0
  }

  function ElectronicAmount(t: Tender): int {
    if t.mode.Electronic() then t.amount else 0
  }

  function Tendered(tenders: seq<Tender>): int {
    SumBy(tenders, TenderAmount)
  }

  function CapturedAmount(i: Intent): int {
    if i.status == Succeeded then i.amount else 0
  }

  function RefundDueAmount(i: Intent): int {
    if i.reason == LateCaptureRefundDue then i.amount else 0
  }

  function PaidAmount(s: Share): int {
    if s.paid then s.amount else 0
  }

  function ShareAmount(s: Share): int {
    s.amount
  }

  function Paid(shares: seq<Share>): int {
    SumBy(shares, PaidAmount)
  }

  // ---- Bill totals from the order's lines ---------------------------------------------------------

  /** Tax is never negative on a non-negative taxable value. */
  function TaxOn(country: Country, reg: Registration, taxable: nat): nat {
    TaxNonNegative(country, reg, taxable);
    ComputeTax(country, reg, taxable).tax
  }

  function NewBill(country: Country, reg: Registration, subtotal: nat): Bill {
    var t := ComputeTax(country, reg, subtotal);
    Bill(subtotal, TaxOn(country, reg, subtotal), t.split, t.inclusive, None, None, None, Open, None, [], [], [], [])
  }

  /** Re-derives an open bill's totals, unless subtotal, tax and split rule are all unchanged. */
  function Refresh(country: Country, reg: Registration, subtotal: nat, b: Bill): Bill {
    if b.status != Open then b else
      var t := ComputeTax(country, reg, subtotal);
      if subtotal == b.subtotal && TaxOn(country, reg, subtotal) == b.tax && t.split == b.split then b
      else b.(subtotal := subtotal, tax := TaxOn(country, reg, subtotal), split := t.split, inclusive := t.inclusive)
  }

  /** Indian prices never include tax; Australian ones do unless no tax was charged. */
  ghost predicate FlagCoherent(country: Country, b: Bill) {
    if country == IN then !b.inclusive else b.inclusive || b.tax == 0
  }

  /**
   * After a refresh the stored payable total is the one computed from scratch exactly when subtotal, tax or
   * split rule moved, or the tax is nothing, or the kept row has the right tax-inclusion flag.
   */
  lemma {:induction false} RefreshTotalIff(country: Country, reg: Registration, subtotal: nat, b: Bill)
    requires b.status == Open && b.discount == None
    ensures var t := ComputeTax(country, reg, subtotal);
            Total(Refresh(country, reg, subtotal, b)) == TotalFor(country, reg, subtotal)
            <==> !(subtotal == b.subtotal && t.tax == b.tax && t.split == b.split) || t.tax == 0 || b.inclusive == t.inclusive
    ensures Refresh(country, reg, subtotal, b).subtotal == subtotal
    ensures Refresh(country, reg, subtotal, b).tax == ComputeTax(country, reg, subtotal).tax
  {
  }

  /** Within one country the refreshed total is always right, whatever lines or registration changed and also when the old row is kept. */
  lemma {:induction false} RefreshTotal(country: Country, reg: Registration, subtotal: nat, b: Bill)
    requires b.status == Open && b.discount == None && FlagCoherent(country, b)
    ensures Total(Refresh(country, reg, subtotal, b)) == TotalFor(country, reg, subtotal)
    ensures FlagCoherent(country, Refresh(country, reg, subtotal, b))
    ensures FlagCoherent(country, NewBill(country, reg, subtotal))
  {
    RefreshTotalIff(country, reg, subtotal, b);
  }
}
