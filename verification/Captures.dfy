/** A capture, once recorded, is never undone, repeated or moved by any later run. */
module Captures {
  import opened Prelude
  import opened Bills
  import opened Payments
  import opened Settlement
  import opened Tabs
  import opened TabInvariant
  import opened Ledger
  import opened Theorems

  ghost predicate Captured(b: Bill, i: nat) {
    i < |b.intents| && b.intents[i].status == Succeeded
  }

  /** The capture is still there, as it was. */
  ghost predicate CaptureKept(b: Bill, b': Bill, i: nat) {
    Captured(b, i) ==> i < |b'.intents| && b'.intents[i] == b.intents[i]
  }

  ghost predicate TabKeepsCapture(tab: Tab, tab': Tab, i: nat) {
    tab.bill.Some? && Captured(tab.bill.value, i) ==> tab'.bill.Some? && CaptureKept(tab.bill.value, tab'.bill.value, i)
  }

  lemma {:induction false} KeptByOrder(tab: Tab, op: Op, env: Env, number: nat, i: nat)
    requires op.OpAdd? || op.OpUpdate? || op.OpRemove? || op.OpVoid? || op.OpSend? || op.OpDiscard? || op.OpTicket?
    requires Apply(tab, op, env, number).Ok?
    ensures TabKeepsCapture(tab, Apply(tab, op, env, number).value, i)
  {
  }

  lemma {:induction false} KeptByReads(tab: Tab, op: Op, env: Env, number: nat, i: nat)
    requires op.OpCreateBill? || op.OpReadBill? || op.OpGuestCreate? || op.OpGuestRead? || op.OpRefund?
    requires Apply(tab, op, env, number).Ok?
    ensures TabKeepsCapture(tab, Apply(tab, op, env, number).value, i)
  {
  }

  /** Raising an intent expires an active one at most. */
  lemma {:induction false} KeptByRaise(b: Bill, amount: Qty, now: nat, simulator: bool, terminal: bool, i: nat)
    requires CreateIntent(b, amount, now, simulator, terminal).Ok?
    ensures CaptureKept(b, CreateIntent(b, amount, now, simulator, terminal).value, i)
  {
    var active := FirstActive(b.intents);
    if active.Some? {
      var b' := ExpireIfDue(b, active.value, now).value;
      assert CaptureKept(b, b', i);
    }
  }

  lemma {:induction false} KeptByIntent(b: Bill, env: Env, k: nat, action: IntentAction, i: nat)
    requires IntentBill(b, env, k, action).Ok?
    ensures CaptureKept(b, IntentBill(b, env, k, action).value, i)
  {
  }

  lemma {:induction false} KeptByCard(b: Bill, env: Env, i: nat)
    requires KioskCard(b, env).Ok?
    ensures CaptureKept(b, KioskCard(b, env).value, i)
  {
  }

  lemma {:induction false} KeptByShare(tab: Tab, env: Env, guest: Id, success: bool, sessionActive: bool, number: nat, i: nat)
    requires PayShare(tab, env, guest, success, sessionActive, number).Ok?
    ensures TabKeepsCapture(tab, PayShare(tab, env, guest, success, sessionActive, number).value, i)
  {
  }

  lemma {:induction false} KeptByWhole(tab: Tab, env: Env, kiosk: bool, success: bool, sessionActive: bool, number: nat, i: nat)
    requires PayAll(tab, env, kiosk, success, sessionActive, number).Ok?
    ensures TabKeepsCapture(tab, PayAll(tab, env, kiosk, success, sessionActive, number).value, i)
  {
    var b := GuestPayable(tab, env, sessionActive).value;
    assert b.intents == tab.bill.value.intents;
    if success && kiosk {
      KeptByCard(b, env, i);
    }
  }

  lemma {:induction false} KeptByFinalize(tab: Tab, env: Env, request: FinalizeRequest, number: nat, i: nat)
    requires Finalize(tab, env, request, number).Ok?
    ensures TabKeepsCapture(tab, Finalize(tab, env, request, number).value, i)
  {
  }

  /** No transaction touches a recorded capture. */
  lemma {:induction false} KeptByAll(tab: Tab, op: Op, env: Env, number: nat, i: nat)
    requires Apply(tab, op, env, number).Ok?
    ensures TabKeepsCapture(tab, Apply(tab, op, env, number).value, i)
  {
    match op
    case OpFinalize(request) => KeptByFinalize(tab, env, request, number, i);
    case OpPayShare(guest, success, sessionActive) => KeptByShare(tab, env, guest, success, sessionActive, number, i);
    case OpPayAll(kiosk, success, sessionActive) => KeptByWhole(tab, env, kiosk, success, sessionActive, number, i);
    case OpRaiseIntent(amount, terminal) =>
      KeptByRaise(Refreshed(tab, env, tab.bill.value), amount, env.now, env.simulator, terminal, i);
    case OpIntent(k, action) => KeptByIntent(tab.bill.value, env, k, action, i);
    case OpCreateBill => KeptByReads(tab, op, env, number, i);
    case OpReadBill => KeptByReads(tab, op, env, number, i);
    case OpGuestCreate(_) => KeptByReads(tab, op, env, number, i);
    case OpGuestRead => KeptByReads(tab, op, env, number, i);
    case OpRefund(_, _) => KeptByReads(tab, op, env, number, i);
    case _ => KeptByOrder(tab, op, env, number, i);
  }

  lemma {:induction false} CaptureStays(db: Db, events: seq<Event>, id: Id, i: nat)
    requires id in db.tabs && db.tabs[id].bill.Some? && Captured(db.tabs[id].bill.value, i)
    ensures var db' := Run(db, events);
            && id in db'.tabs && db'.tabs[id].bill.Some?
            && CaptureKept(db.tabs[id].bill.value, db'.tabs[id].bill.value, i)
  {
    if |events| > 0 {
      var before, e := Run(db, events[..|events| - 1]), events[|events| - 1];
      CaptureStays(db, events[..|events| - 1], id, i);
      StepOnTab(before, e, id);
      if Step(before, e).tabs[id] != before.tabs[id] {
        KeptByAll(before.tabs[id], e.action.op, EnvAt(before.clock, e), NextNumber(before, id), i);
      }
    }
  }

  lemma {:induction false} SameCount(b: Bill, b': Bill, i: nat)
    requires BillIntentsOk(b) && BillIntentsOk(b') && Captured(b, i) && CaptureKept(b, b', i)
    ensures TendersOf(b'.tenders, i) == TendersOf(b.tenders, i)
  {
    assert IntentOk(b.status, b.tenders, b.intents, i);
    assert IntentOk(b'.status, b'.tenders, b'.intents, i);
  }

  lemma {:induction false} StoredIntentsOk(db: Db, id: Id)
    requires DbOk(db) && id in db.tabs && db.tabs[id].bill.Some?
    ensures BillIntentsOk(db.tabs[id].bill.value)
  {
    assert TabOk(db.tabs[id], db.clock);
  }

  /** The rows agree on a capture, and confirming it again is refused or changes nothing. */
  ghost predicate SameCapture(b: Bill, b': Bill, i: nat, simulator: bool) {
    && Captured(b, i)
    && i < |b'.intents| && b'.intents[i] == b.intents[i]
    && TendersOf(b'.tenders, i) == TendersOf(b.tenders, i)
    && Confirm(b', i, simulator) == if b.intents[i].provider == Simulated && !simulator then Err(SimulatorDisabled) else Ok(b')
  }

  lemma {:induction false} KeptIsSame(b: Bill, b': Bill, i: nat, simulator: bool)
    requires BillIntentsOk(b) && BillIntentsOk(b') && Captured(b, i) && CaptureKept(b, b', i)
    ensures SameCapture(b, b', i, simulator)
  {
    SameCount(b, b', i);
  }

  /**
   * After every run a recorded capture is as it was recorded, with as many tenders as it had - one, or none and the
   * refund-due flag - and confirming it again changes nothing; it is refused only while a simulated capture's simulator is off.
   */
  lemma {:induction false} CaptureIsFinal(db: Db, events: seq<Event>, id: Id, i: nat, simulator: bool)
    requires DbOk(db) && id in db.tabs && db.tabs[id].bill.Some? && Captured(db.tabs[id].bill.value, i)
    ensures var db' := Run(db, events);
            && id in db'.tabs && db'.tabs[id].bill.Some?
            && SameCapture(db.tabs[id].bill.value, db'.tabs[id].bill.value, i, simulator)
  {
    CaptureStays(db, events, id, i);
    RunOk(db, events);
    StoredIntentsOk(db, id);
    StoredIntentsOk(Run(db, events), id);
    KeptIsSame(db.tabs[id].bill.value, Run(db, events).tabs[id].bill.value, i, simulator);
  }
}
