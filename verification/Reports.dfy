/** The payments report: totals over finalised bills, and keyset paging through them. */
module Reports {
  import opened Prelude
  import opened Tax
  import opened Bills
  import opened TabInvariant
  import opened Ledger
  import opened Theorems

  datatype Totals = Totals(count: nat, subtotal: int, discount: int, tax: int, total: int, roundOff: int, tendered: int, refunded: int, net: int)

  function SubtotalOf(b: Bill): int {
    b.subtotal
  }

  function DiscountMinor(b: Bill): int {
    DiscountOf(b)
  }

  function TaxOf(b: Bill): int {
    b.tax
  }

  function RoundOffOf(b: Bill): int {
    OrZero(b.roundOff)
  }

  function TenderedOn(b: Bill): int {
    Tendered(b.tenders)
  }

  function RefundedOn(b: Bill): int {
    SumBy(b.notes, NoteWorth(b.inclusive))
  }

  /** totalsFor: every figure is the sum over the matching bills. */
  method TotalsFor(bills: seq<Bill>) returns (t: Totals)
    ensures t == Totals(|bills|, SumBy(bills, SubtotalOf), SumBy(bills, DiscountMinor), SumBy(bills, TaxOf), SumBy(bills, Total), SumBy(bills, RoundOffOf),
                        SumBy(bills, TenderedOn), SumBy(bills, RefundedOn), SumBy(bills, Total) - SumBy(bills, RefundedOn))
  {
    var subtotal, discount, tax, total, roundOff := 0, 0, 0, 0, 0;
    for i := 0 to |bills|
      invariant subtotal == SumBy(bills[..i], SubtotalOf) && discount == SumBy(bills[..i], DiscountMinor)
      invariant tax == SumBy(bills[..i], TaxOf) && total == SumBy(bills[..i], Total) && roundOff == SumBy(bills[..i], RoundOffOf)
    {
      assert bills[..i + 1][..i] == bills[..i];
      var b := bills[i];
      roundOff := roundOff + OrZero(b.roundOff);
      subtotal := subtotal + b.subtotal;
      discount := discount + DiscountOf(b);
      tax := tax + b.tax;
      total := total + Payable(b.subtotal, b.tax, DiscountOf(b), b.inclusive);
    }
    var tendered, refunded := 0, 0;
    for i := 0 to |bills|
      invariant tendered == SumBy(bills[..i], TenderedOn) && refunded == SumBy(bills[..i], RefundedOn)
    {
      assert bills[..i + 1][..i] == bills[..i];
      var b := bills[i];
      var paid, back := BillFlows(b);
      tendered, refunded := tendered + paid, refunded + back;
    }
    assert bills[..|bills|] == bills;
    t := Totals(|bills|, subtotal, discount, tax, total, roundOff, tendered, refunded, total - refunded);
  }

  method BillFlows(b: Bill) returns (paid: int, back: int)
    ensures paid == Tendered(b.tenders) && back == SumBy(b.notes, NoteWorth(b.inclusive))
  {
    paid, back := 0, 0;
    for i := 0 to |b.tenders|
      invariant paid == Tendered(b.tenders[..i])
    {
      assert b.tenders[..i + 1][..i] == b.tenders[..i];
      paid := paid + b.tenders[i].amount;
    }
    assert b.tenders[..|b.tenders|] == b.tenders;
    for i := 0 to |b.notes|
      invariant back == SumBy(b.notes[..i], NoteWorth(b.inclusive))
    {
      assert b.notes[..i + 1][..i] == b.notes[..i];
      back := back + if b.inclusive then b.notes[i].subtotal else b.notes[i].subtotal + b.notes[i].tax;
    }
    assert b.notes[..|b.notes|] == b.notes;
  }

  ghost predicate FromStore(db: Db, b: Bill) {
    exists id :: id in db.tabs && IsFinal(db.tabs[id]) && db.tabs[id].bill.value == b
  }

  lemma {:induction false} BillBalances(db: Db, b: Bill)
    requires Reachable(db) && FromStore(db, b)
    ensures TenderedOn(b) == Total(b) + RoundOffOf(b)
    ensures 0 <= RefundedOn(b) <= Total(b)
  {
    var id :| id in db.tabs && IsFinal(db.tabs[id]) && db.tabs[id].bill.value == b;
    FinalisedBillsBalance(db, id);
    ReachableOk(db);
    assert TabOk(db.tabs[id], db.clock);
    NotesWorth(db.tabs[id].country, db.tabs[id].lines, db.tabs[id].next, b);
  }

  /** Over any selection of finalised bills, money in is the totals plus the round-offs, and money back never exceeds the totals. */
  lemma {:induction false} ReportBalances(db: Db, bills: seq<Bill>)
    requires Reachable(db) && forall b :: b in bills ==> FromStore(db, b)
    ensures SumBy(bills, TenderedOn) == SumBy(bills, Total) + SumBy(bills, RoundOffOf)
    ensures 0 <= SumBy(bills, RefundedOn) <= SumBy(bills, Total)
  {
    if |bills| > 0 {
      var front, last := bills[..|bills| - 1], bills[|bills| - 1];
      assert last in bills;
      assert forall b :: b in front ==> b in bills;
      ReportBalances(db, front);
      BillBalances(db, last);
    }
  }

  /** One more bill adds exactly its own stored figures to the totals. */
  lemma {:induction false} TotalsAddBill(bills: seq<Bill>, b: Bill)
    ensures SumBy(bills + [b], SubtotalOf) == SumBy(bills, SubtotalOf) + b.subtotal
    ensures SumBy(bills + [b], DiscountMinor) == SumBy(bills, DiscountMinor) + if b.discount.Some? then b.discount.value else 0
    ensures SumBy(bills + [b], TaxOf) == SumBy(bills, TaxOf) + b.tax
    ensures SumBy(bills + [b], RoundOffOf) == SumBy(bills, RoundOffOf) + if b.roundOff.Some? then b.roundOff.value else 0
    ensures SumBy(bills + [b], TenderedOn) == SumBy(bills, TenderedOn) + SumBy(b.tenders, TenderAmount)
    ensures SumBy(bills + [b], RefundedOn) == SumBy(bills, RefundedOn) + SumBy(b.notes, NoteWorth(b.inclusive))
  {
    SumBySnoc(bills, b, SubtotalOf);
    SumBySnoc(bills, b, DiscountMinor);
    SumBySnoc(bills, b, TaxOf);
    SumBySnoc(bills, b, RoundOffOf);
    SumBySnoc(bills, b, TenderedOn);
    SumBySnoc(bills, b, RefundedOn);
  }
}
