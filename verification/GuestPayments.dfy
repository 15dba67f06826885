/** A guest's payment: exactly when it is taken, and exactly what it writes. */
module GuestPayments {
  import opened Prelude
  import opened Tax
  import opened Orders
  import opened Bills
  import opened Payments
  import opened Shares
  import opened Settlement
  import opened Tabs
  import opened TabInvariant
  import opened Finalising
  import opened OrderEffects
  import opened GuestSplits
  import GuestBilling

  /** The bill a guest pays: up to date, its total cut across the guests, its money as it was. */
  ghost predicate ReadyToPay(tab: Tab, env: Env, b: Bill, due: int)
    requires tab.bill.Some?
  {
    && SameMoney(tab.bill.value, b) && b.status == Open
    && UpToDate(tab.country, env.reg, b) && Current(tab, env, b)
    && Shared(tab.lines, Total(b), tab.bill.value.shares, b.shares, due)
  }

  /** A payment can start exactly while the simulator and the session are on, the bill is open and its total can be cut. */
  lemma {:induction false} GuestPayableExact(tab: Tab, env: Env, sessionActive: bool, due: int)
    requires tab.bill.Some? && BillOk(tab.country, tab.bill.value)
    requires due == TotalFor(tab.country, env.reg, Subtotal(tab.lines)) - Paid(tab.bill.value.shares)
    ensures var r := GuestPayable(tab, env, sessionActive);
            && (r.Ok? <==> env.simulator && sessionActive && tab.bill.value.status == Open && GuestRead(tab, env).Ok?)
            && (r.Ok? ==> ReadyToPay(tab, env, r.value, due))
  {
    RefreshedCurrent(tab, env);
    if tab.bill.value.status == Open {
      RefreshedUpToDate(tab, env);
      var b := Refreshed(tab, env, tab.bill.value);
      RefreshedOk(tab.country, env.reg, Subtotal(tab.lines), tab.bill.value);
      if Sync(tab.lines, Total(b), b.shares).Ok? {
        SyncedIsShared(tab.lines, Total(b), b.shares, Sync(tab.lines, Total(b), b.shares).value, due);
      }
    }
  }

  // ---- One share ---------------------------------------------------------------------------------------

  /** The guest has a share on the bill and it is not paid. */
  ghost predicate HasOpenShare(shares: seq<Share>, g: Id) {
    HasShare(shares, g) && !HasPaid(shares, g)
  }

  lemma {:induction false} OpenShareIff(shares: seq<Share>, g: Id)
    requires SharesOk(shares)
    ensures HasOpenShare(shares, g) <==> IndexOfGuest(shares, g).Some? && !shares[IndexOfGuest(shares, g).value].paid
  {
    var i := IndexOfGuest(shares, g);
    if i.Some? {
      assert shares[i.value] in shares;
      if HasPaid(shares, g) {
        var s :| s in shares && s.guest == g && s.paid;
        var k :| 0 <= k < |shares| && shares[k] == s;
      }
    }
  }

  /** One manual UPI tender of exactly the share, and that share marked paid by it; nothing else changed. */
  ghost predicate ShareTaken(b: Bill, b': Bill, g: Id) {
    exists i :: 0 <= i < |b.shares| && b.shares[i].guest == g && !b.shares[i].paid
      && b' == b.(tenders := b.tenders + [Tender(UpiManual, b.shares[i].amount, None, None)], shares := b.shares[i := b.shares[i].(paid := true, tender := Some(|b.tenders|))])
  }

  /**
   * Once a payment can start, a guest without an open share is refused; a payment that fails writes nothing; a successful one
   * that leaves another share open writes exactly one tender of the guest's share.
   */
  lemma {:induction false} PayShareExact(tab: Tab, env: Env, g: Id, success: bool, number: nat, clock: nat)
    requires TabOk(tab, clock) && GuestPayable(tab, env, true).Ok?
    ensures var b := GuestPayable(tab, env, true).value;
            var r := PayShare(tab, env, g, success, true, number);
            && (!HasOpenShare(b.shares, g) ==> r.Err?)
            && (HasOpenShare(b.shares, g) && !success ==> r == Ok(tab.(bill := Some(b))))
            && (HasOpenShare(b.shares, g) && success && (exists x :: x != g && HasOpenShare(b.shares, x)) ==>
                  r.Ok? && r.value.bill.Some? && r.value == tab.(bill := r.value.bill) && ShareTaken(b, r.value.bill.value, g))
  {
    GuestPayableOk(tab, env, true, clock);
    var b := GuestPayable(tab, env, true).value;
    OpenShareIff(b.shares, g);
    if HasOpenShare(b.shares, g) && success && exists x :: x != g && HasOpenShare(b.shares, x) {
      var x :| x != g && HasOpenShare(b.shares, x);
      var i := IndexOfGuest(b.shares, g).value;
      StillOneOpen(b.shares, i, |b.tenders|, x);
      assert ShareTaken(b, WithSharePaid(b, i), g);
    }
  }

  // ---- The whole bill --------------------------------------------------------------------------------------

  /** All shares paid by the one new tender. */
  ghost predicate AllPaidBy(shares: seq<Share>, shares': seq<Share>, tender: nat) {
    |shares'| == |shares| && forall k :: 0 <= k < |shares| ==> shares'[k] == shares[k].(paid := true, tender := Some(tender))
  }

  /** The bill once the whole total is tendered, by manual UPI or on the kiosk's card reader. */
  ghost predicate WholeTendered(b: Bill, b': Bill, kiosk: bool, expiresAt: nat) {
    && b' == b.(tenders := b'.tenders, intents := b'.intents, shares := b'.shares)
    && AllPaidBy(b.shares, b'.shares, |b.tenders|)
    && b'.tenders == b.tenders + [if kiosk then Tender(CardTerminal, Total(b), None, Some(|b.intents|)) else Tender(UpiManual, Total(b), None, None)]
    && b'.intents == b.intents + (if kiosk then [Intent(CardTerminal, Simulated, Total(b), Succeeded, NoReason, expiresAt)] else [])
  }

  ghost predicate NoneActive(b: Bill) {
    forall i :: 0 <= i < |b.intents| ==> b.intents[i].status != Created && b.intents[i].status != Pending
  }

  lemma {:induction false} NoneActiveIff(b: Bill)
    ensures NoneActive(b) <==> !exists i :: i in b.intents && Active(i)
  {
    if !NoneActive(b) {
      var i :| 0 <= i < |b.intents| && !(b.intents[i].status != Created && b.intents[i].status != Pending);
      assert b.intents[i] in b.intents;
    }
  }

  /** The intermediate bill of a successful whole payment, when one can be formed. */
  function Whole(b: Bill, env: Env, kiosk: bool): Result<Bill> {
    var b' :- if kiosk then KioskCard(b, env) else Ok(b.(tenders := b.tenders + [Tender(UpiManual, Total(b), None, None)]));
    Ok(b'.(shares := MarkAllPaid(b'.shares, |b.tenders|)))
  }

  lemma {:induction false} WholeIs(b: Bill, env: Env, kiosk: bool)
    requires BillIntentsOk(b) && b.status == Open && env.simulator && 0 <= Total(b)
    ensures Whole(b, env, kiosk).Ok? <==> kiosk ==> NoneActive(b)
    ensures Whole(b, env, kiosk).Ok? ==> WholeTendered(b, Whole(b, env, kiosk).value, kiosk, env.now + 60_000)
  {
    NoneActiveIff(b);
    if kiosk && NoneActive(b) {
      RaisedAndConfirmed(b, KioskIntent(b, env), env.simulator);
    }
  }

  lemma {:induction false} WholeSums(b: Bill, b': Bill, kiosk: bool, expiresAt: nat)
    requires WholeTendered(b, b', kiosk, expiresAt)
    ensures Tendered(b'.tenders) == Tendered(b.tenders) + Total(b) && CashOf(b'.tenders) == CashOf(b.tenders)
  {
    var t := b'.tenders[|b.tenders|];
    SumBySnoc(b.tenders, t, TenderAmount);
    SumBySnoc(b.tenders, t, CashAmount);
  }

  lemma {:induction false} WholeWaits(b: Bill, b': Bill, kiosk: bool, expiresAt: nat, now: nat)
    requires WholeTendered(b, b', kiosk, expiresAt)
    ensures NothingWaits(b', now) <==> NothingWaits(b, now)
  {
    if NothingWaits(b', now) {
      assert forall i :: 0 <= i < |b.intents| ==> b'.intents[i] == b.intents[i];
    }
  }

  /** A tendered whole bill commits exactly when nothing waits and nothing was captured before. */
  lemma {:induction false} WholeCommits(country: Country, reg: Registration, env: Env, b: Bill, b': Bill, kiosk: bool, number: nat)
    requires UpToDate(country, reg, b) && env.simulator && WholeTendered(b, b', kiosk, env.now + 60_000)
    requires CashOf(b.tenders) == 0 && Total(b) == TotalFor(country, reg, b.subtotal)
    ensures var r := Commit(country, reg, env.simulator, env.now, b', None, number);
            && (r.Ok? <==> NothingWaits(b, env.now) && Tendered(b.tenders) == 0)
            && (r.Ok? ==> Stores(country, reg, b', r.value, None, number, env.now) && r.value.roundOff == None)
  {
    WholeSums(b, b', kiosk, env.now + 60_000);
    WholeWaits(b, b', kiosk, env.now + 60_000, env.now);
    CommitExact(country, reg, env.simulator, env.now, b', None, number);
  }

  lemma {:induction false} PayAllIs(tab: Tab, env: Env, kiosk: bool, success: bool, number: nat)
    requires GuestPayable(tab, env, true).Ok?
    ensures var b := GuestPayable(tab, env, true).value;
            var r := PayAll(tab, env, kiosk, success, true, number);
            if exists s :: s in b.shares && s.paid then r == Err(PartialPaymentExists)
            else if !success then r == Ok(tab.(bill := Some(b)))
            else if Whole(b, env, kiosk).Err? then r.Err?
            else r == Complete(tab, env, Whole(b, env, kiosk).value, number)
  {
  }

  /**
   * Once a payment can start, paying the whole bill is refused when a share is paid already and writes nothing when it fails;
   * it succeeds exactly when no intent waits, nothing was captured before and, on the kiosk, no intent is active at all, and
   * then settles the bill with one tender of exactly the total that pays every share.
   */
  lemma {:induction false} PayAllExact(tab: Tab, env: Env, kiosk: bool, success: bool, number: nat, clock: nat)
    requires TabOk(tab, clock) && clock <= env.now && GuestPayable(tab, env, true).Ok?
    ensures var b := GuestPayable(tab, env, true).value;
            var r := PayAll(tab, env, kiosk, success, true, number);
            && ((exists s :: s in b.shares && s.paid) ==> r.Err?)
            && (!(exists s :: s in b.shares && s.paid) && !success ==> r == Ok(tab.(bill := Some(b))))
            && (!(exists s :: s in b.shares && s.paid) && success ==>
                  && (r.Ok? <==> NothingWaits(b, env.now) && SumBy(b.intents, CapturedAmount) == 0 && (kiosk ==> NoneActive(b)))
                  && (r.Ok? ==> PaidWhole(tab, r.value, b, kiosk, env, number)))
  {
    GuestPayableOk(tab, env, true, clock);
    GuestPayableExact(tab, env, true, TotalFor(tab.country, env.reg, Subtotal(tab.lines)) - Paid(tab.bill.value.shares));
    PayAllIs(tab, env, kiosk, success, number);
    var b := GuestPayable(tab, env, true).value;
    if !(exists s :: s in b.shares && s.paid) && success {
      NothingPaidYet(tab.country, b);
      TaxNonNegative(tab.country, env.reg, Subtotal(tab.lines));
      WholeIs(b, env, kiosk);
      if Whole(b, env, kiosk).Ok? {
        WholeCommits(tab.country, env.reg, env, b, Whole(b, env, kiosk).value, kiosk, number);
        WholeClosed(tab, env, b, Whole(b, env, kiosk).value, kiosk, number);
      }
    }
  }

  /** What a successful whole payment leaves. */
  ghost predicate PaidWhole(tab: Tab, tab': Tab, b: Bill, kiosk: bool, env: Env, number: nat) {
    && tab'.bill.Some? && tab'.state == Closed && tab'.lines == tab.lines
    && var b' := tab'.bill.value;
    && b'.status == Finalized && b'.number == Some(number) && b'.roundOff == None && b'.discount == None
    && Total(b') == Total(b)
    && WholeTendered(b, b.(tenders := b'.tenders, intents := b'.intents, shares := b'.shares), kiosk, env.now + 60_000)
  }

  lemma {:induction false} WholeClosed(tab: Tab, env: Env, b: Bill, b': Bill, kiosk: bool, number: nat)
    requires WholeTendered(b, b', kiosk, env.now + 60_000)
    requires var r := Commit(tab.country, env.reg, env.simulator, env.now, b', None, number);
             r.Ok? ==> Stores(tab.country, env.reg, b', r.value, None, number, env.now) && r.value.roundOff == None
    requires Total(b) == TotalFor(tab.country, env.reg, b.subtotal)
    ensures Complete(tab, env, b', number).Ok? <==> Commit(tab.country, env.reg, env.simulator, env.now, b', None, number).Ok?
    ensures Complete(tab, env, b', number).Ok? ==> PaidWhole(tab, Complete(tab, env, b', number).value, b, kiosk, env, number)
  {
  }

  lemma {:induction false} NothingPaidYet(country: Country, b: Bill)
    requires BillOk(country, b) && b.status == Open && !exists s :: s in b.shares && s.paid
    ensures Tendered(b.tenders) == SumBy(b.intents, CapturedAmount) && CashOf(b.tenders) == 0
  {
    GuestBilling.NothingPaid(b.shares);
  }
}
