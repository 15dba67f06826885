/** Payment intents: confirm, fail, expire, cancel, create - and the money they put on the bill. */
module Payments {
  import opened Prelude
  import opened Bills

  /** How long a terminal request stays open, in milliseconds. */
  const INTENT_TTL_MS: nat := 5 * 60_000

  predicate Active(i: Intent) {
    i.status == Created || i.status == Pending
  }

  predicate HasTender(tenders: seq<Tender>, i: nat) {
    exists t :: t in tenders && t.intent == Some(i)
  }

  function WithIntent(b: Bill, i: nat, intent: Intent): Bill
    requires i < |b.intents|
  {
    b.(intents := b.intents[i := intent])
  }

  /** Money moved: compare-and-swap to succeeded, then a tender, or a refund-due flag on a settled bill. */
  function Confirm(b: Bill, i: nat, simulator: bool): Result<Bill> {
    if i >= |b.intents| then Err(NotFound) else
      var intent := b.intents[i];
      if intent.provider == Simulated && !simulator then Err(SimulatorDisabled)
      else if !(Active(intent) || intent.status == Expired) then Ok(b)
      else
        var flipped := intent.(status := Succeeded, reason := NoReason);
        if HasTender(b.tenders, i) then Ok(WithIntent(b, i, flipped))
        else if b.status == Finalized then Ok(WithIntent(b, i, flipped.(reason := LateCaptureRefundDue)))
        else Ok(WithIntent(b, i, flipped).(tenders := b.tenders + [Tender(intent.rail, intent.amount, None, Some(i))]))
  }

  function Fail(b: Bill, i: nat): Result<Bill> {
    if i >= |b.intents| then Err(NotFound)
    else if !Active(b.intents[i]) then Ok(b)
    else Ok(WithIntent(b, i, b.intents[i].(status := Failed, reason := Declined)))
  }

  function ExpireIfDue(b: Bill, i: nat, now: nat): Result<Bill> {
    if i >= |b.intents| then Err(NotFound)
    else if !Active(b.intents[i]) || b.intents[i].expiresAt > now then Ok(b)
    else Ok(WithIntent(b, i, b.intents[i].(status := Expired, reason := TimedOut)))
  }

  function Cancel(b: Bill, i: nat, now: nat): Result<Bill> {
    var b' :- ExpireIfDue(b, i, now);
    if i >= |b'.intents| then Err(NotFound)
    else if b'.intents[i].status == Succeeded then Err(AlreadySucceeded)
    else if !Active(b'.intents[i]) then Ok(b')
    else Ok(WithIntent(b', i, b'.intents[i].(status := Cancelled, reason := CancelledByStaff)))
  }

  /** The bill's first active intent. */
  function FirstActive(intents: seq<Intent>): (r: Option<nat>)
    ensures r.Some? ==> r.value < |intents| && Active(intents[r.value])
    ensures r.None? ==> forall x :: x in intents ==> !Active(x)
  {
    if |intents| == 0 then None else
      var r := FirstActive(intents[..|intents| - 1]);
      assert intents == intents[..|intents| - 1] + [intents[|intents| - 1]];
      if r.Some? then r else if Active(intents[|intents| - 1]) then Some(|intents| - 1) else None
  }

  /** Raises an intent on a refreshed bill: never for more than is still due, one active intent at a time. */
  function CreateIntent(b: Bill, amount: Qty, now: nat, simulator: bool, terminal: bool): Result<Bill> {
    if !simulator then Err(ProviderUnavailable)
    else if b.status == Finalized then Err(AlreadyFinalized)
    else if amount > Total(b) - Tendered(b.tenders) then Err(AmountExceedsRemaining)
    else
      var active := FirstActive(b.intents);
      var b' := if active.Some? then ExpireIfDue(b, active.value, now) else Ok(b);
      if b'.Err? then Err(b'.error)
      else if active.Some? && active.value < |b'.value.intents| && Active(b'.value.intents[active.value]) then Err(IntentActive)
      else if !terminal then Err(Conflict)
      else Ok(AppendIntent(b'.value, Intent(CardTerminal, Simulated, amount, Pending, NoReason, now + INTENT_TTL_MS)))
  }

  function AppendIntent(b: Bill, intent: Intent): Bill {
    b.(intents := b.intents + [intent])
  }

  // ---- The invariant of the money rows -----------------------------------------------------------

  function Names(i: nat): Tender -> int {
    (t: Tender) => if t.intent == Some(i) then 1 else 0
  }

  /** How many tenders an intent wrote. */
  function TendersOf(tenders: seq<Tender>, i: nat): int {
    SumBy(tenders, Names(i))
  }

  /** A succeeded intent has either exactly one tender or the late-capture flag of a settled bill, never both; any other intent has neither. */
  ghost predicate IntentOk(status: BillStatus, tenders: seq<Tender>, intents: seq<Intent>, i: nat)
    requires i < |intents|
  {
    && intents[i].rail.Electronic()
    && 0 <= intents[i].amount
    && (intents[i].reason == LateCaptureRefundDue ==> intents[i].status == Succeeded && status == Finalized)
    && TendersOf(tenders, i) == if intents[i].status == Succeeded && intents[i].reason != LateCaptureRefundDue then 1 else 0
  }

  /** A tender is electronic exactly when it names an intent, which then succeeded for the same amount on the same rail. */
  ghost predicate TenderOk(intents: seq<Intent>, t: Tender) {
    && 0 <= t.amount
    && (t.mode.Electronic() <==> t.intent.Some?)
    && (t.intent.Some? ==>
          && t.intent.value < |intents|
          && intents[t.intent.value].status == Succeeded
          && intents[t.intent.value].amount == t.amount
          && intents[t.intent.value].rail == t.mode)
  }

  ghost predicate OneActive(intents: seq<Intent>) {
    forall i, j :: 0 <= i < j < |intents| ==> !(Active(intents[i]) && Active(intents[j]))
  }

  /** Captured money equals electronic tenders plus captures due back. */
  ghost predicate Conserved(tenders: seq<Tender>, intents: seq<Intent>) {
    SumBy(intents, CapturedAmount) == SumBy(tenders, ElectronicAmount) + SumBy(intents, RefundDueAmount)
  }

  ghost predicate IntentsOk(status: BillStatus, tenders: seq<Tender>, intents: seq<Intent>) {
    && (forall i :: 0 <= i < |intents| ==> IntentOk(status, tenders, intents, i))
    && (forall t :: t in tenders ==> TenderOk(intents, t))
    && OneActive(intents)
    && Conserved(tenders, intents)
  }

  ghost predicate BillIntentsOk(b: Bill) {
    IntentsOk(b.status, b.tenders, b.intents)
  }

  // ---- Every step keeps it -----------------------------------------------------------------------

  lemma {:induction false} TendersOfAbsent(tenders: seq<Tender>, i: nat)
    requires !HasTender(tenders, i)
    ensures TendersOf(tenders, i) == 0
  {
    if |tenders| > 0 {
      assert tenders[|tenders| - 1] in tenders;
      forall t | t in tenders[..|tenders| - 1]
        ensures t in tenders
      {
      }
      TendersOfAbsent(tenders[..|tenders| - 1], i);
    }
  }

  lemma {:induction false} TendersOfPresent(tenders: seq<Tender>, i: nat)
    requires HasTender(tenders, i)
    ensures TendersOf(tenders, i) >= 1
  {
    var t :| t in tenders && t.intent == Some(i);
    SumByMember(tenders, Names(i), t);
  }

  /** An intent that has not succeeded has written no tender. */
  lemma {:induction false} UnsettledHasNoTender(b: Bill, i: nat)
    requires BillIntentsOk(b) && i < |b.intents| && b.intents[i].status != Succeeded
    ensures !HasTender(b.tenders, i)
  {
    assert IntentOk(b.status, b.tenders, b.intents, i);
    if HasTender(b.tenders, i) {
      TendersOfPresent(b.tenders, i);
    }
  }

  /** Moving an unsettled intent to another unsettled status changes no money. */
  lemma {:induction false} StatusOnly(b: Bill, i: nat, intent: Intent)
    requires BillIntentsOk(b) && i < |b.intents|
    requires b.intents[i].status != Succeeded && intent.status != Succeeded
    requires intent.reason != LateCaptureRefundDue && b.intents[i].reason != LateCaptureRefundDue
    requires intent.rail == b.intents[i].rail && intent.amount == b.intents[i].amount
    requires Active(intent) ==> Active(b.intents[i])
    ensures BillIntentsOk(WithIntent(b, i, intent))
  {
    var intents' := b.intents[i := intent];
    SumByUpdate(b.intents, i, intent, CapturedAmount);
    SumByUpdate(b.intents, i, intent, RefundDueAmount);
    forall k | 0 <= k < |intents'|
      ensures IntentOk(b.status, b.tenders, intents', k)
    {
      assert IntentOk(b.status, b.tenders, b.intents, k);
    }
    forall t | t in b.tenders
      ensures TenderOk(intents', t)
    {
      assert TenderOk(b.intents, t);
    }
  }

  /** Nothing but the status and reason of one intent that has not succeeded changed, and it still has not. */
  ghost predicate NoMoneyMoved(b: Bill, b': Bill, i: nat) {
    && b' == b.(intents := b'.intents)
    && |b'.intents| == |b.intents|
    && (forall k :: 0 <= k < |b.intents| && (k != i || b.intents[k].status == Succeeded) ==> b'.intents[k] == b.intents[k])
    && (forall k :: 0 <= k < |b.intents| ==> b'.intents[k].amount == b.intents[k].amount && (b'.intents[k].status == Succeeded <==> b.intents[k].status == Succeeded))
  }

  /** A decline moves no money. */
  lemma {:induction false} FailOk(b: Bill, i: nat)
    requires BillIntentsOk(b)
    ensures Fail(b, i).Ok? ==> BillIntentsOk(Fail(b, i).value) && NoMoneyMoved(b, Fail(b, i).value, i) && !Active(Fail(b, i).value.intents[i])
  {
    if i < |b.intents| && Active(b.intents[i]) {
      assert IntentOk(b.status, b.tenders, b.intents, i);
      StatusOnly(b, i, b.intents[i].(status := Failed, reason := Declined));
    }
  }

  /** Lazy expiry moves no money and leaves no overdue intent active. */
  lemma {:induction false} ExpireOk(b: Bill, i: nat, now: nat)
    requires BillIntentsOk(b)
    ensures ExpireIfDue(b, i, now).Ok? ==>
              var b' := ExpireIfDue(b, i, now).value;
              BillIntentsOk(b') && NoMoneyMoved(b, b', i) && (Active(b'.intents[i]) ==> b'.intents[i].expiresAt > now)
  {
    if i < |b.intents| && Active(b.intents[i]) && b.intents[i].expiresAt <= now {
      assert IntentOk(b.status, b.tenders, b.intents, i);
      StatusOnly(b, i, b.intents[i].(status := Expired, reason := TimedOut));
    }
  }

  /** A cancellation moves no money; a succeeded intent refuses it. */
  lemma {:induction false} CancelOk(b: Bill, i: nat, now: nat)
    requires BillIntentsOk(b)
    ensures Cancel(b, i, now).Ok? ==> BillIntentsOk(Cancel(b, i, now).value) && NoMoneyMoved(b, Cancel(b, i, now).value, i) && !Active(Cancel(b, i, now).value.intents[i])
    ensures i < |b.intents| && b.intents[i].status == Succeeded ==> Cancel(b, i, now) == Err(AlreadySucceeded)
  {
    ExpireOk(b, i, now);
    if i < |b.intents| {
      var b' := ExpireIfDue(b, i, now).value;
      if Active(b'.intents[i]) {
        assert IntentOk(b'.status, b'.tenders, b'.intents, i);
        StatusOnly(b', i, b'.intents[i].(status := Cancelled, reason := CancelledByStaff));
      }
    }
  }

  lemma {:induction false} AppendIntentOk(b: Bill, intent: Intent)
    requires BillIntentsOk(b) && Active(intent) && intent.rail.Electronic() && intent.reason == NoReason && 0 <= intent.amount
    requires forall x :: x in b.intents ==> !Active(x)
    ensures BillIntentsOk(AppendIntent(b, intent))
  {
    var intents' := b.intents + [intent];
    SumBySnoc(b.intents, intent, CapturedAmount);
    SumBySnoc(b.intents, intent, RefundDueAmount);
    assert forall k :: 0 <= k < |b.intents| ==> b.intents[k] in b.intents;
    forall k | 0 <= k < |intents'|
      ensures IntentOk(b.status, b.tenders, intents', k)
    {
      if k < |b.intents| {
        assert IntentOk(b.status, b.tenders, b.intents, k);
      } else {
        forall t | t in b.tenders
          ensures t.intent != Some(k)
        {
          assert TenderOk(b.intents, t);
        }
        TendersOfAbsent(b.tenders, k);
      }
    }
    forall t | t in b.tenders
      ensures TenderOk(intents', t)
    {
      assert TenderOk(b.intents, t);
    }
  }

  /** Creating an intent keeps the money rows consistent and never asks for more than is due. */
  lemma {:induction false} CreateIntentOk(b: Bill, amount: Qty, now: nat, simulator: bool, terminal: bool)
    requires BillIntentsOk(b)
    ensures var r := CreateIntent(b, amount, now, simulator, terminal);
            r.Ok? ==>
              && BillIntentsOk(r.value)
              && r.value.tenders == b.tenders
              && Tendered(b.tenders) + amount <= Total(b)
  {
    var active := FirstActive(b.intents);
    if active.Some? {
      ExpireOk(b, active.value, now);
    }
    var r := CreateIntent(b, amount, now, simulator, terminal);
    if r.Ok? {
      var b' := if active.Some? then ExpireIfDue(b, active.value, now).value else b;
      forall x | x in b'.intents
        ensures !Active(x)
      {
        var k :| 0 <= k < |b'.intents| && b'.intents[k] == x;
        if active.Some? && k != active.value {
          assert b'.intents[k] == b.intents[k];
        }
      }
      AppendIntentOk(b', r.value.intents[|b'.intents|]);
    }
  }

  /** The other rows are as consistent with the changed intent as they were before. */
  lemma {:induction false} OthersKept(b: Bill, i: nat, intent: Intent)
    requires BillIntentsOk(b) && i < |b.intents|
    requires b.intents[i].status != Succeeded && intent.status == Succeeded
    ensures forall t :: t in b.tenders ==> TenderOk(b.intents[i := intent], t)
    ensures OneActive(b.intents[i := intent])
  {
    var intents' := b.intents[i := intent];
    forall t | t in b.tenders
      ensures TenderOk(intents', t)
    {
      assert TenderOk(b.intents, t);
    }
  }

  lemma {:induction false} CaptureOpenOk(b: Bill, i: nat)
    requires BillIntentsOk(b) && i < |b.intents| && b.intents[i].status != Succeeded && b.status == Open
    ensures var intent := b.intents[i].(status := Succeeded, reason := NoReason);
            BillIntentsOk(WithIntent(b, i, intent).(tenders := b.tenders + [Tender(intent.rail, intent.amount, None, Some(i))]))
  {
    var intent := b.intents[i].(status := Succeeded, reason := NoReason);
    var t := Tender(intent.rail, intent.amount, None, Some(i));
    var intents', tenders' := b.intents[i := intent], b.tenders + [t];
    assert IntentOk(b.status, b.tenders, b.intents, i);
    UnsettledHasNoTender(b, i);
    OthersKept(b, i, intent);
    SumByUpdate(b.intents, i, intent, CapturedAmount);
    SumByUpdate(b.intents, i, intent, RefundDueAmount);
    SumBySnoc(b.tenders, t, ElectronicAmount);
    ConfirmCounts(b, i, t);
    forall k | 0 <= k < |intents'|
      ensures IntentOk(b.status, tenders', intents', k)
    {
      assert IntentOk(b.status, b.tenders, b.intents, k);
    }
    assert TenderOk(intents', t);
    assert forall x :: x in tenders' ==> x == t || x in b.tenders;
  }

  lemma {:induction false} CaptureLateOk(b: Bill, i: nat)
    requires BillIntentsOk(b) && i < |b.intents| && b.intents[i].status != Succeeded && b.status == Finalized
    ensures BillIntentsOk(WithIntent(b, i, b.intents[i].(status := Succeeded, reason := LateCaptureRefundDue)))
  {
    var intent := b.intents[i].(status := Succeeded, reason := LateCaptureRefundDue);
    var intents' := b.intents[i := intent];
    assert IntentOk(b.status, b.tenders, b.intents, i);
    OthersKept(b, i, intent);
    SumByUpdate(b.intents, i, intent, CapturedAmount);
    SumByUpdate(b.intents, i, intent, RefundDueAmount);
    forall k | 0 <= k < |intents'|
      ensures IntentOk(b.status, b.tenders, intents', k)
    {
      assert IntentOk(b.status, b.tenders, b.intents, k);
    }
  }

  /** A capture landed: one tender of the intent's amount and rail on an open bill, the refund-due flag and no tender on a settled one. */
  ghost predicate Landed(b: Bill, b': Bill, i: nat)
    requires i < |b.intents| && i < |b'.intents|
  {
    && b'.intents[i].status == Succeeded
    && b'.intents[i].amount == b.intents[i].amount
    && (b.status == Open ==>
      && b'.intents[i].reason == NoReason
      && TendersOf(b'.tenders, i) == 1
      && b'.tenders == b.tenders + [Tender(b.intents[i].rail, b.intents[i].amount, None, Some(i))])
    && (b.status == Finalized ==>
      && b'.intents[i].reason == LateCaptureRefundDue
      && TendersOf(b'.tenders, i) == 0
      && b'.tenders == b.tenders)
  }

  /** A capture lands exactly once: as one tender while the bill is open, as a refund due once it is settled. */
  lemma {:induction false} ConfirmOk(b: Bill, i: nat, simulator: bool)
    requires BillIntentsOk(b)
    ensures Confirm(b, i, simulator).Ok? ==>
              var b' := Confirm(b, i, simulator).value;
              && BillIntentsOk(b')
              && b' == b.(intents := b'.intents, tenders := b'.tenders)
              && |b'.intents| == |b.intents|
              && (forall k :: 0 <= k < |b.intents| && k != i ==> b'.intents[k] == b.intents[k])
              && (if Active(b.intents[i]) || b.intents[i].status == Expired then Landed(b, b', i) else b' == b)
  {
    var r := Confirm(b, i, simulator);
    if r.Ok? && (Active(b.intents[i]) || b.intents[i].status == Expired) {
      UnsettledHasNoTender(b, i);
      if b.status == Open {
        CaptureOpenOk(b, i);
        ConfirmCounts(b, i, Tender(b.intents[i].rail, b.intents[i].amount, None, Some(i)));
      } else {
        CaptureLateOk(b, i);
        TendersOfAbsent(b.tenders, i);
      }
    }
  }

  lemma {:induction false} ConfirmCounts(b: Bill, i: nat, t: Tender)
    requires t.intent == Some(i) && !HasTender(b.tenders, i)
    ensures forall k: nat :: TendersOf(b.tenders + [t], k) == if k == i then 1 else TendersOf(b.tenders, k)
  {
    TendersOfAbsent(b.tenders, i);
    forall k: nat
      ensures TendersOf(b.tenders + [t], k) == if k == i then 1 else TendersOf(b.tenders, k)
    {
      SumBySnoc(b.tenders, t, Names(k));
    }
  }

  /** Confirming twice is confirming once. */
  lemma {:induction false} ConfirmIdempotent(b: Bill, i: nat, first: bool, again: bool)
    requires Confirm(b, i, first).Ok?
    ensures var b' := Confirm(b, i, first).value;
            Confirm(b', i, again).Ok? ==> Confirm(b', i, again).value == b'
  {
  }
}
