/** What the invariant gives in every reachable state, and what no run can change. */
module Theorems {
  import opened Prelude
  import opened Tax
  import opened Orders
  import opened Invoice
  import opened Kitchen
  import opened OrderStatus
  import opened Refunds
  import opened Bills
  import opened Payments
  import opened Settlement
  import opened Tabs
  import opened TabInvariant
  import opened Ledger

  ghost predicate Reachable(db: Db) {
    exists country, events :: db == Run(Start(country), events)
  }

  lemma {:induction false} ReachableOk(db: Db)
    requires Reachable(db)
    ensures DbOk(db)
  {
    var country, events :| db == Run(Start(country), events);
    StartOk(country);
    RunOk(Start(country), events);
  }

  // ---- Settlement ----------------------------------------------------------------------------------

  /** In every reachable state a finalised bill's tenders are its total plus its stored round-off, which is only ever cash rounding. */
  lemma {:induction false} FinalisedBillsBalance(db: Db, id: Id)
    requires Reachable(db) && id in db.tabs && IsFinal(db.tabs[id])
    ensures var b := db.tabs[id].bill.value;
            var unit := if db.country == IN then 100 else 5;
            && Tendered(b.tenders) == Total(b) + OrZero(b.roundOff)
            && -unit < 2 * OrZero(b.roundOff) <= unit
            && (b.roundOff.Some? ==> b.roundOff.value != 0 && CashOf(b.tenders) > 0 && CashOf(b.tenders) % unit == 0)
            && b.subtotal == Subtotal(db.tabs[id].lines)
            && DiscountOf(b) <= b.subtotal
  {
    ReachableOk(db);
    assert TabOk(db.tabs[id], db.clock);
  }

  lemma {:induction false} StepOnTab(db: Db, e: Event, id: Id)
    requires id in db.tabs
    ensures id in Step(db, e).tabs
    ensures || Step(db, e).tabs[id] == db.tabs[id]
            || (&& e.action.OnOrder? && e.action.id == id
                && Apply(db.tabs[id], e.action.op, EnvAt(db.clock, e), NextNumber(db, id)) == Ok(Step(db, e).tabs[id]))
  {
  }

  /** No later transaction adds a tender to a finalised bill or changes its amounts, number or lines. */
  lemma {:induction false} SettlementIsFinal(db: Db, events: seq<Event>, id: Id)
    requires DbOk(db) && id in db.tabs && IsFinal(db.tabs[id])
    ensures var db' := Run(db, events);
            && id in db'.tabs
            && IsFinal(db'.tabs[id])
            && db'.tabs[id].lines == db.tabs[id].lines
            && SameSettlement(db.tabs[id].bill.value, db'.tabs[id].bill.value)
  {
    if |events| > 0 {
      var before, e := Run(db, events[..|events| - 1]), events[|events| - 1];
      SettlementIsFinal(db, events[..|events| - 1], id);
      RunOk(db, events[..|events| - 1]);
      StepOnTab(before, e, id);
      if Step(before, e).tabs[id] != before.tabs[id] {
        ApplyKeeps(before.tabs[id], e.action.op, EnvAt(before.clock, e), NextNumber(before, id), before.clock);
      }
    }
  }

  /** Bill numbers of an outlet are 1 to its counter, each on exactly one finalised bill. */
  lemma {:induction false} BillNumbersGapless(db: Db, outlet: Id, n: nat)
    requires Reachable(db)
    ensures 1 <= n <= LastNumber(db.counters, outlet) <==> HasNumber(db.tabs, outlet, n)
    ensures forall a, b :: a in db.tabs && b in db.tabs && IsFinal(db.tabs[a]) && IsFinal(db.tabs[b]) && db.tabs[a].outlet == db.tabs[b].outlet && NumberOf(db.tabs[a]) == NumberOf(db.tabs[b]) ==> a == b
  {
    ReachableOk(db);
    if HasNumber(db.tabs, outlet, n) {
      var id :| id in db.tabs && IsFinal(db.tabs[id]) && db.tabs[id].outlet == outlet && NumberOf(db.tabs[id]) == n;
    }
  }

  /** A transaction that takes a number finalised one bill and gave it that number; a refused one takes none. */
  lemma {:induction false} RefusedReservesNothing(db: Db, e: Event)
    requires DbOk(db)
    ensures Step(db, e).tabs == db.tabs ==> Step(db, e).counters == db.counters
    ensures Step(db, e).counters != db.counters ==> e.action.OnOrder? && e.action.id in db.tabs && Numbered(db, Step(db, e), e.action.id)
  {
    if e.action.OnOrder? && e.action.id in db.tabs {
      var env := EnvAt(db.clock, e);
      var r := Apply(db.tabs[e.action.id], e.action.op, env, NextNumber(db, e.action.id));
      ApplyFits(db, e.action.id, e.action.op, env);
      StepReserves(db, env.now, Step(db, e), e.action.id, r);
    }
  }

  lemma {:induction false} StepReserves(db: Db, now: nat, db': Db, id: Id, r: Result<Tab>)
    requires id in db.tabs && db' == Write(db.(clock := now), id, r)
    requires r.Ok? ==> Keeps(db.tabs[id], r.value, NextNumber(db, id))
    ensures db'.tabs == db.tabs ==> db'.counters == db.counters
    ensures db'.counters != db.counters ==> Numbered(db, db', id)
  {
    WriteReserves(db.(clock := now), id, r);
  }

  ghost predicate Numbered(db: Db, db': Db, id: Id)
    requires id in db.tabs
  {
    && id in db'.tabs
    && !IsFinal(db.tabs[id]) && IsFinal(db'.tabs[id])
    && db'.counters == db.counters[db.tabs[id].outlet := NextNumber(db, id)]
    && NumberOf(db'.tabs[id]) == NextNumber(db, id)
  }

  lemma {:induction false} WriteReserves(db: Db, id: Id, r: Result<Tab>)
    requires id in db.tabs
    requires r.Ok? ==> Keeps(db.tabs[id], r.value, NextNumber(db, id))
    ensures Write(db, id, r).tabs == db.tabs ==> Write(db, id, r).counters == db.counters
    ensures Write(db, id, r).counters != db.counters ==> Numbered(db, Write(db, id, r), id)
  {
    if r.Ok? {
      assert Write(db, id, r).tabs[id] == r.value;
    }
  }

  // ---- Refunds ---------------------------------------------------------------------------------------

  /**
   * In every reachable state the credit notes of a bill are the rounded-down proration of the refunded
   * gross, never more than was billed, and exactly what was billed once every unit is refunded.
   */
  lemma {:induction false} RefundsNeverExceedPayment(db: Db, id: Id)
    requires Reachable(db) && id in db.tabs && IsFinal(db.tabs[id])
    ensures var tab := db.tabs[id];
            var b := tab.bill.value;
            var gross := Gross(AllLines(b.notes));
            && DiscountOf(b) <= b.subtotal
            && SumBy(b.notes, NoteSubtotal) == Prorate(gross, b.subtotal - DiscountOf(b), b.subtotal)
            && SumBy(b.notes, NoteTax) == Prorate(gross, b.tax, b.subtotal)
            && SumBy(b.notes, NoteWorth(b.inclusive)) <= Total(b)
            && ((forall l :: l in Live(tab.lines) ==> Refunded(AllLines(b.notes), l.id) == l.quantity) ==> SumBy(b.notes, NoteWorth(b.inclusive)) == Total(b))
  {
    ReachableOk(db);
    var tab := db.tabs[id];
    assert TabOk(tab, db.clock);
    var b := tab.bill.value;
    NotesWorth(tab.country, tab.lines, tab.next, b);
  }

  /**
   * In every reachable state no billed line is refunded past its quantity, a combo pick's refunded units are in the
   * combo's ratio, only billed lines are refunded, and each note's line amounts are non-negative and sum to its subtotal.
   */
  lemma {:induction false} RefundedUnitsCapped(db: Db, id: Id)
    requires Reachable(db) && id in db.tabs && IsFinal(db.tabs[id])
    ensures var live := Live(db.tabs[id].lines);
            var notes := db.tabs[id].bill.value.notes;
            var taken := AllLines(notes);
            && (forall l :: l in live ==> Refunded(taken, l.id) <= l.quantity)
            && (forall p, c :: p in live && c in live && IsParentOf(p, c) ==> Refunded(taken, c.id) * p.quantity == Refunded(taken, p.id) * c.quantity)
            && (forall nl :: nl in taken ==> exists l :: l in live && l.id == nl.lineId && nl.unitPrice == Unit(l))
            && (forall n, nl :: n in notes && nl in n.lines ==> 0 <= nl.amount)
            && (forall n :: n in notes ==> SumBy(n.lines, NoteLineAmount) == n.subtotal)
  {
    ReachableOk(db);
    assert TabOk(db.tabs[id], db.clock);
    assert UnitsOk(Live(db.tabs[id].lines), AllLines(db.tabs[id].bill.value.notes));
  }

  lemma {:induction false} WorthSplits(notes: seq<Note>, inclusive: bool)
    ensures SumBy(notes, NoteWorth(inclusive)) == SumBy(notes, NoteSubtotal) + if inclusive then 0 else SumBy(notes, NoteTax)
  {
    if |notes| > 0 {
      WorthSplits(notes[..|notes| - 1], inclusive);
    }
  }

  lemma {:induction false} NotesWorth(country: Country, lines: seq<Line>, next: Id, b: Bill)
    requires LinesOk(lines, next) && Settled(country, b) && b.subtotal == Subtotal(lines) && NotesOk(lines, FiguresOf(b), b.notes)
    requires b.subtotal == 0 ==> b.tax == 0
    ensures 0 <= SumBy(b.notes, NoteWorth(b.inclusive)) <= Total(b)
    ensures (forall l :: l in Live(lines) ==> Refunded(AllLines(b.notes), l.id) == l.quantity) ==> SumBy(b.notes, NoteWorth(b.inclusive)) == Total(b)
  {
    RefundsWithinBill(lines, next, FiguresOf(b), b.notes);
    WorthSplits(b.notes, b.inclusive);
  }

  // ---- Captures ----------------------------------------------------------------------------------------

  /** Every succeeded intent is on its bill exactly once: as its one tender, or as a refund due on a finalised bill; captured money is conserved. */
  lemma {:induction false} CapturesAccountedFor(db: Db, id: Id, i: nat)
    requires Reachable(db) && id in db.tabs && db.tabs[id].bill.Some? && i < |db.tabs[id].bill.value.intents|
    ensures var b := db.tabs[id].bill.value;
            var intent := b.intents[i];
            && (intent.status == Succeeded ==>
                  || (intent.reason == LateCaptureRefundDue && b.status == Finalized && TendersOf(b.tenders, i) == 0)
                  || (intent.reason != LateCaptureRefundDue && TendersOf(b.tenders, i) == 1))
            && (intent.status != Succeeded ==> TendersOf(b.tenders, i) == 0)
            && (forall t :: t in b.tenders && t.intent == Some(i) ==> t.amount == intent.amount && t.mode == intent.rail)
            && SumBy(b.intents, CapturedAmount) == SumBy(b.tenders, ElectronicAmount) + SumBy(b.intents, RefundDueAmount)
  {
    ReachableOk(db);
    assert TabOk(db.tabs[id], db.clock);
    var b := db.tabs[id].bill.value;
    assert BillIntentsOk(b);
    assert IntentOk(b.status, b.tenders, b.intents, i);
    assert forall t :: t in b.tenders ==> TenderOk(b.intents, t);
  }

  // ---- Kitchen -----------------------------------------------------------------------------------------

  /** Every order line reaches the kitchen at most once, its ticket line agrees with it, and a finalised bill's items are all there. */
  lemma {:induction false} KitchenHasEveryLineOnce(db: Db, id: Id)
    requires Reachable(db) && id in db.tabs
    ensures var tab := db.tabs[id];
            && (forall l :: l in tab.lines ==> Count(tab.tickets, l.id) <= 1)
            && (forall l :: l in tab.lines && l.kind.Combo? ==> Count(tab.tickets, l.id) == 0)
            && (forall t, tl, l :: t in tab.tickets && tl in t.lines && l in tab.lines && l.id == tl.lineId ==> Matches(l, tl))
            && (IsFinal(tab) ==> forall l :: l in tab.lines && !l.voided && l.kind.Item? ==> Count(tab.tickets, l.id) == 1)
  {
    ReachableOk(db);
    var tab := db.tabs[id];
    assert TabOk(tab, db.clock);
    forall t, tl, l | t in tab.tickets && tl in t.lines && l in tab.lines && l.id == tl.lineId
      ensures Matches(l, tl)
    {
      assert TicketMatches(tab.lines, t);
      var m :| m in tab.lines && Matches(m, tl);
      SameId(tab.lines, l, m);
    }
    forall l | l in tab.lines && l.kind.Combo?
      ensures Count(tab.tickets, l.id) == 0
    {
      NoTicketForCombo(tab.lines, tab.tickets, l);
    }
  }

  lemma {:induction false} NoTicketForCombo(lines: seq<Line>, tickets: seq<Ticket>, l: Line)
    requires Distinct(lines) && l in lines && l.kind.Combo?
    requires forall t :: t in tickets ==> TicketMatches(lines, t)
    ensures Count(tickets, l.id) == 0
  {
    if |tickets| > 0 {
      var last := tickets[|tickets| - 1];
      assert last in tickets;
      NoTicketForCombo(lines, tickets[..|tickets| - 1], l);
      forall tl | tl in last.lines
        ensures IsFor(l.id)(tl) == 0
      {
        var m :| m in lines && Matches(m, tl);
        if m.id == l.id {
          SameId(lines, m, l);
        }
      }
      NothingFor(last.lines, l.id);
    }
  }

  lemma {:induction false} NothingFor(lines: seq<TicketLine>, id: Id)
    requires forall tl :: tl in lines ==> IsFor(id)(tl) == 0
    ensures SumBy(lines, IsFor(id)) == 0
  {
    if |lines| > 0 {
      assert lines[|lines| - 1] in lines;
      NothingFor(lines[..|lines| - 1], id);
    }
  }

  /** A ticket's status and recall count are what its event log replays to, and its batches are exactly 0 to the largest. */
  lemma {:induction false} TicketsReplay(db: Db, id: Id, t: Ticket, batch: nat)
    requires Reachable(db) && id in db.tabs && t in db.tabs[id].tickets
    ensures Replay(t.events) == Replayed(t.status, t.recallCount)
    ensures t.status == Bumped ==> t.bumpedAt.Some?
    ensures (exists tl :: tl in t.lines && tl.batch == batch) <==> batch <= MaxBatch(t.lines)
  {
    ReachableOk(db);
    assert TabOk(db.tabs[id], db.clock);
    assert TicketOk(t, db.tabs[id].createdAt, db.clock);
    BatchesExact(t.lines, batch);
  }

  /** Every reachable order has a truthful stepper. */
  lemma {:induction false} StepperAlwaysDefined(db: Db, id: Id)
    requires Reachable(db) && id in db.tabs
    ensures var tab := db.tabs[id];
            && (forall t :: t in tab.tickets && t.status == Bumped ==> t.bumpedAt.Some?)
            && var v := BuildOrderStatus(tab.createdAt, tab.tickets);
            && (v.step == Ready <==> tab.tickets != [] && forall t :: t in tab.tickets ==> t.status == Bumped)
            && (v.acceptedAt.Some? ==> v.placedAt <= v.acceptedAt.value)
            && (v.readyAt.Some? ==> v.acceptedAt.Some? && v.acceptedAt.value <= v.readyAt.value <= db.clock)
  {
    ReachableOk(db);
    var tab := db.tabs[id];
    assert TabOk(tab, db.clock);
    StepperTruthful(tab.lines, tab.tickets, tab.createdAt, db.clock);
  }

  /** Every reachable order's invoice lines add up to its subtotal, each with an exact unit price. */
  lemma {:induction false} InvoicesAddUp(db: Db, id: Id, top: Line)
    requires Reachable(db) && id in db.tabs && top in db.tabs[id].lines
    ensures var lines := db.tabs[id].lines;
            && SumBy(InvoiceLines(lines), PrintedTotal) == Subtotal(lines)
            && Printed(Live(lines), top).unitPrice * top.quantity == Printed(Live(lines), top).lineTotal
  {
    ReachableOk(db);
    assert TabOk(db.tabs[id], db.clock);
    InvoiceSumsToSubtotal(db.tabs[id].lines, db.tabs[id].next);
    PrintedExact(db.tabs[id].lines, db.tabs[id].next, top);
  }
}
