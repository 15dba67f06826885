/** Guests settling a bill between them, share by share, in whatever order they pay. */
module GuestSplits {
  import opened Prelude
  import opened Tax
  import opened Orders
  import opened Bills
  import opened Shares
  import opened Settlement
  import opened Tabs
  import opened TabInvariant
  import opened Ledger
  import opened GuestBilling
  import Kitchen

  ghost predicate HasPaid(shares: seq<Share>, g: Id) {
    exists s :: s in shares && s.guest == g && s.paid
  }

  /** The guest has a share or a line on the order, and has not paid. */
  ghost predicate OwesOn(lines: seq<Line>, shares: seq<Share>, g: Id) {
    (HasShare(shares, g) || g in Guests(lines)) && !HasPaid(shares, g)
  }

  ghost predicate Owes(tab: Tab, g: Id)
    requires tab.bill.Some?
  {
    OwesOn(tab.lines, tab.bill.value.shares, g)
  }

  // ---- Shares ------------------------------------------------------------------------------------------

  /** A sync marks nobody paid and forgets no payment. */
  lemma {:induction false} SyncKeepsPaid(shares: seq<Share>, synced: seq<Share>, guests: seq<Id>, g: Id)
    requires Extends(shares, synced, guests)
    ensures HasPaid(synced, g) <==> HasPaid(shares, g)
  {
    if s :| s in shares && s.guest == g && s.paid {
      var k :| 0 <= k < |shares| && shares[k] == s;
      assert synced[k] in synced;
    }
    if s :| s in synced && s.guest == g && s.paid {
      var k :| 0 <= k < |synced| && synced[k] == s;
      assert shares[k] in shares;
    }
  }

  lemma {:induction false} MarkedPaid(shares: seq<Share>, i: nat, tender: nat, g: Id)
    requires i < |shares|
    ensures var shares' := shares[i := shares[i].(paid := true, tender := Some(tender))];
            && (HasPaid(shares', g) <==> HasPaid(shares, g) || g == shares[i].guest)
            && (HasShare(shares', g) <==> HasShare(shares, g))
  {
    var shares' := shares[i := shares[i].(paid := true, tender := Some(tender))];
    SameGuests(shares, shares', g);
    assert shares'[i] in shares';
    if s :| s in shares && s.guest == g && s.paid {
      var k :| 0 <= k < |shares| && shares[k] == s;
      assert shares'[k] in shares' && shares'[k].paid;
    }
    if s :| s in shares' && s.guest == g && s.paid {
      var k :| 0 <= k < |shares'| && shares'[k] == s;
      assert k == i || shares[k] in shares;
    }
  }

  /** The unpaid share of a guest who owes. */
  lemma {:induction false} ShareOfOwing(shares: seq<Share>, g: Id)
    requires HasShare(shares, g) && !HasPaid(shares, g)
    ensures IndexOfGuest(shares, g).Some? && !shares[IndexOfGuest(shares, g).value].paid
  {
    assert shares[IndexOfGuest(shares, g).value] in shares;
  }

  /** With someone owing, the sync is never refused. */
  lemma {:induction false} OwingSyncs(lines: seq<Line>, total: int, shares: seq<Share>, g: Id)
    requires SharesOk(shares) && Paid(shares) <= total && OwesOn(lines, shares, g)
    ensures Sync(lines, total, shares).Ok?
  {
    SyncRefusedIff(lines, total, shares);
    if HasShare(shares, g) {
      var s :| s in shares && s.guest == g;
    }
  }

  /** What a guest's payment works on: the shares of everyone who owes are open, all others are paid. */
  lemma {:induction false} PayableShares(tab: Tab, env: Env, g: Id, clock: nat)
    requires TabOk(tab, clock) && tab.bill.Some? && tab.bill.value.status == Open && env.simulator && PaidWithin(tab, env.reg) && Owes(tab, g)
    ensures GuestPayable(tab, env, true).Ok?
    ensures var b := GuestPayable(tab, env, true).value;
            Extends(tab.bill.value.shares, b.shares, Guests(tab.lines)) && SharesOk(b.shares) && b.intents == tab.bill.value.intents
  {
    var b := Refreshed(tab, env, tab.bill.value);
    RefreshedOk(tab.country, env.reg, Subtotal(tab.lines), tab.bill.value);
    OwingSyncs(tab.lines, Total(b), b.shares, g);
    SyncExact(tab.lines, Total(b), b.shares);
  }

  // ---- One payment --------------------------------------------------------------------------------------

  /** The order after a payment that is not the last: still open, and the others still owe. */
  ghost predicate OneFewer(tab: Tab, tab': Tab, g: Id)
    requires tab.bill.Some?
  {
    && tab'.bill.Some? && tab'.bill.value.status == Open
    && tab'.bill.value.intents == tab.bill.value.intents
    && forall x :: Owes(tab', x) <==> Owes(tab, x) && x != g
  }

  lemma {:induction false} PaidShareLeaves(tab: Tab, b: Bill, i: nat, g: Id)
    requires tab.bill.Some? && b.status == Open && b.intents == tab.bill.value.intents
    requires Extends(tab.bill.value.shares, b.shares, Guests(tab.lines))
    requires i < |b.shares| && b.shares[i].guest == g
    ensures OneFewer(tab, tab.(bill := Some(WithSharePaid(b, i))), g)
  {
    forall x
      ensures OwesOn(tab.lines, WithSharePaid(b, i).shares, x) <==> OwesOn(tab.lines, tab.bill.value.shares, x) && x != g
    {
      SyncKeepsPaid(tab.bill.value.shares, b.shares, Guests(tab.lines), x);
      MarkedPaid(b.shares, i, |b.tenders|, x);
    }
  }

  lemma {:induction false} StillOneOpen(shares: seq<Share>, i: nat, tender: nat, other: Id)
    requires i < |shares| && shares[i].guest != other && HasShare(shares, other) && !HasPaid(shares, other)
    ensures Outstanding(shares[i := shares[i].(paid := true, tender := Some(tender))]) != 0
  {
    var shares' := shares[i := shares[i].(paid := true, tender := Some(tender))];
    MarkedPaid(shares, i, tender, other);
    OutstandingIff(shares');
    var s :| s in shares' && s.guest == other;
  }

  /** While another guest owes too, a guest who owes can always pay, and then no longer owes. */
  lemma {:induction false} EarlierPayment(tab: Tab, env: Env, g: Id, other: Id, number: nat, clock: nat)
    requires TabOk(tab, clock) && tab.bill.Some? && tab.bill.value.status == Open && env.simulator && PaidWithin(tab, env.reg)
    requires Owes(tab, g) && Owes(tab, other) && g != other
    ensures PayShare(tab, env, g, true, true, number).Ok?
    ensures OneFewer(tab, PayShare(tab, env, g, true, true, number).value, g)
  {
    PayableShares(tab, env, g, clock);
    var b := GuestPayable(tab, env, true).value;
    var was, guests := tab.bill.value.shares, Guests(tab.lines);
    SyncKeepsPaid(was, b.shares, guests, g);
    SyncKeepsPaid(was, b.shares, guests, other);
    ShareOfOwing(b.shares, g);
    var i := IndexOfGuest(b.shares, g).value;
    StillOneOpen(b.shares, i, |b.tenders|, other);
    PaidShareLeaves(tab, b, i, g);
  }

  /** When only one guest owes, theirs is the last open share. */
  lemma {:induction false} OnlyOneOpen(tab: Tab, b: Bill, g: Id)
    requires tab.bill.Some? && SharesOk(b.shares) && Extends(tab.bill.value.shares, b.shares, Guests(tab.lines))
    requires forall x :: Owes(tab, x) <==> x == g
    ensures LastShare(b.shares, g)
  {
    var was, guests := tab.bill.value.shares, Guests(tab.lines);
    assert Owes(tab, g);
    SyncKeepsPaid(was, b.shares, guests, g);
    ShareOfOwing(b.shares, g);
    var i := IndexOfGuest(b.shares, g).value;
    forall k | 0 <= k < |b.shares| && k != i
      ensures b.shares[k].paid
    {
      var x := b.shares[k].guest;
      assert b.shares[k] in b.shares;
      assert HasShare(b.shares, x) && x != g;
      SyncKeepsPaid(was, b.shares, guests, x);
      assert !Owes(tab, x);
      var s :| s in b.shares && s.guest == x && s.paid;
      var j :| 0 <= j < |b.shares| && b.shares[j] == s;
    }
  }

  /** The last guest's payment settles the bill exactly when no intent waits and nothing was captured. */
  lemma {:induction false} LastPayment(tab: Tab, env: Env, g: Id, number: nat, clock: nat)
    requires TabOk(tab, clock) && clock <= env.now && tab.bill.Some? && tab.bill.value.status == Open && env.simulator && PaidWithin(tab, env.reg)
    requires forall x :: Owes(tab, x) <==> x == g
    ensures var r := PayShare(tab, env, g, true, true, number);
            && (r.Ok? <==> !Waiting(tab.bill.value, env.now) && SumBy(tab.bill.value.intents, CapturedAmount) == 0)
            && (r.Ok? ==> IsFinal(r.value) && r.value.bill.value.number == Some(number))
  {
    assert Owes(tab, g);
    PayableShares(tab, env, g, clock);
    OnlyOneOpen(tab, GuestPayable(tab, env, true).value, g);
    LastShareFinalizesIff(tab, env, g, number, clock);
  }

  // ---- Everyone pays --------------------------------------------------------------------------------------

  /** One guest pays some time after the payment before. */
  datatype Payment = Payment(guest: Id, elapsed: nat, stations: seq<Kitchen.Station>)

  function PayEvent(id: Id, reg: Registration, p: Payment): Event {
    Event(OnOrder(id, OpPayShare(p.guest, true, true)), p.elapsed, reg, true, p.stations)
  }

  function PayEvents(id: Id, reg: Registration, payments: seq<Payment>): seq<Event> {
    seq(|payments|, i requires 0 <= i < |payments| => PayEvent(id, reg, payments[i]))
  }

  ghost predicate Pays(payments: seq<Payment>, g: Id) {
    exists p :: p in payments && p.guest == g
  }

  /** Everyone who owes pays, once, and nobody else does. */
  ghost predicate EveryonePays(tab: Tab, payments: seq<Payment>)
    requires tab.bill.Some?
  {
    && (forall i, j :: 0 <= i < j < |payments| ==> payments[i].guest != payments[j].guest)
    && (forall g :: Owes(tab, g) <==> Pays(payments, g))
  }

  /** An order in a store, open to be split under one registration. */
  ghost predicate Splittable(db: Db, id: Id, reg: Registration) {
    && DbOk(db) && id in db.tabs
    && db.tabs[id].bill.Some? && db.tabs[id].bill.value.status == Open
    && PaidWithin(db.tabs[id], reg)
  }

  /** The bill is settled exactly when nothing waits and nothing was captured, and then has the next number. */
  ghost predicate SettledIff(db: Db, db': Db, id: Id)
    requires id in db.tabs && db.tabs[id].bill.Some?
  {
    && id in db'.tabs
    && (IsFinal(db'.tabs[id]) <==> !Waiting(db.tabs[id].bill.value, db'.clock) && SumBy(db.tabs[id].bill.value.intents, CapturedAmount) == 0)
    && (IsFinal(db'.tabs[id]) ==>
      && NumberOf(db'.tabs[id]) == NextNumber(db, id)
      && db'.counters == db.counters[db.tabs[id].outlet := NextNumber(db, id)])
  }

  lemma {:induction false} PayStep(db: Db, id: Id, reg: Registration, p: Payment, r: Result<Tab>)
    requires id in db.tabs
    requires r == PayShare(db.tabs[id], EnvAt(db.clock, PayEvent(id, reg, p)), p.guest, true, true, NextNumber(db, id))
    ensures Step(db, PayEvent(id, reg, p)) == Write(db.(clock := db.clock + p.elapsed), id, r)
  {
    var e := PayEvent(id, reg, p);
    ApplyPays(db.tabs[id], EnvAt(db.clock, e), p.guest, NextNumber(db, id), r);
    StepWrites(db, e, id, e.action.op, r);
  }

  lemma {:induction false} ApplyPays(tab: Tab, env: Env, g: Id, number: nat, r: Result<Tab>)
    requires r == PayShare(tab, env, g, true, true, number)
    ensures Apply(tab, OpPayShare(g, true, true), env, number) == r
  {
  }

  lemma {:induction false} StepWrites(db: Db, e: Event, id: Id, op: Op, r: Result<Tab>)
    requires id in db.tabs && e.action == OnOrder(id, op) && r == Apply(db.tabs[id], op, EnvAt(db.clock, e), NextNumber(db, id))
    ensures Step(db, e) == Write(db.(clock := db.clock + e.elapsed), id, r)
  {
  }

  lemma {:induction false} OthersAfter(tab: Tab, tab': Tab, payments: seq<Payment>)
    requires tab.bill.Some? && |payments| > 0 && EveryonePays(tab, payments) && OneFewer(tab, tab', payments[0].guest)
    ensures EveryonePays(tab', payments[1..])
  {
    var rest := payments[1..];
    assert forall i :: 0 <= i < |rest| ==> rest[i] == payments[i + 1];
    forall g
      ensures Pays(payments, g) && g != payments[0].guest <==> Pays(rest, g)
    {
      if p :| p in rest && p.guest == g {
        assert p in payments;
      }
      if p :| p in payments && p.guest == g && g != payments[0].guest {
        var k :| 0 <= k < |payments| && payments[k] == p;
        assert rest[k - 1] == p;
      }
    }
  }

  lemma {:induction false} EarlierStep(db: Db, id: Id, reg: Registration, payments: seq<Payment>)
    requires Splittable(db, id, reg) && |payments| > 1 && EveryonePays(db.tabs[id], payments)
    ensures var db' := Step(db, PayEvent(id, reg, payments[0]));
            && Splittable(db', id, reg) && EveryonePays(db'.tabs[id], payments[1..])
            && db'.tabs[id].bill.value.intents == db.tabs[id].bill.value.intents
            && db'.counters == db.counters && db'.tabs[id].outlet == db.tabs[id].outlet
  {
    var tab, e := db.tabs[id], PayEvent(id, reg, payments[0]);
    var env, g, other := EnvAt(db.clock, e), payments[0].guest, payments[1].guest;
    assert payments[0] in payments && payments[1] in payments;
    assert Owes(tab, g) && Owes(tab, other);
    assert TabOk(tab, db.clock);
    EarlierPayment(tab, env, g, other, NextNumber(db, id), db.clock);
    var r := PayShare(tab, env, g, true, true, NextNumber(db, id));
    PayStep(db, id, reg, payments[0], r);
    StepOk(db, e);
    OthersAfter(tab, r.value, payments);
    PaidWithinPayShare(tab, env, g, true, true, NextNumber(db, id), db.clock);
    KeepsShare(tab, env, g, true, true, NextNumber(db, id));
  }

  lemma {:induction false} OnlyPays(p: Payment, g: Id)
    ensures Pays([p], g) <==> g == p.guest
  {
    assert p in [p];
  }

  lemma {:induction false} LastStep(db: Db, id: Id, reg: Registration, p: Payment)
    requires Splittable(db, id, reg) && EveryonePays(db.tabs[id], [p])
    ensures SettledIff(db, Step(db, PayEvent(id, reg, p)), id)
  {
    var tab, env := db.tabs[id], EnvAt(db.clock, PayEvent(id, reg, p));
    forall x
      ensures Owes(tab, x) <==> x == p.guest
    {
      OnlyPays(p, x);
    }
    assert TabOk(tab, db.clock);
    LastPayment(tab, env, p.guest, NextNumber(db, id), db.clock);
    var r := PayShare(tab, env, p.guest, true, true, NextNumber(db, id));
    PayStep(db, id, reg, p, r);
    LastWrite(db, id, r, db.clock + p.elapsed);
  }

  lemma {:induction false} LastWrite(db: Db, id: Id, r: Result<Tab>, now: nat)
    requires id in db.tabs && db.tabs[id].bill.Some? && db.tabs[id].bill.value.status == Open
    requires r.Ok? <==> !Waiting(db.tabs[id].bill.value, now) && SumBy(db.tabs[id].bill.value.intents, CapturedAmount) == 0
    requires r.Ok? ==> IsFinal(r.value) && r.value.bill.value.number == Some(NextNumber(db, id))
    ensures SettledIff(db, Write(db.(clock := now), id, r), id)
  {
  }

  /**
   * However many guests owe and in whatever order they pay, once each of them has paid the bill is settled under the
   * next number exactly when no payment intent is waiting at the end and no card capture is on the bill.
   */
  lemma {:induction false} EveryShareSettles(db: Db, id: Id, reg: Registration, payments: seq<Payment>)
    requires Splittable(db, id, reg) && |payments| > 0 && EveryonePays(db.tabs[id], payments)
    ensures SettledIff(db, Run(db, PayEvents(id, reg, payments)), id)
    decreases |payments|
  {
    var first := PayEvent(id, reg, payments[0]);
    var events := PayEvents(id, reg, payments);
    if |payments| == 1 {
      assert payments == [payments[0]];
      assert events == [] + [first];
      RunSnoc(db, [], first);
      LastStep(db, id, reg, payments[0]);
    } else {
      var rest := PayEvents(id, reg, payments[1..]);
      assert events == [] + [first] + rest;
      RunSnoc(db, [], first);
      RunAppends(db, [] + [first], rest);
      EarlierStep(db, id, reg, payments);
      EveryShareSettles(Step(db, first), id, reg, payments[1..]);
    }
  }
}
