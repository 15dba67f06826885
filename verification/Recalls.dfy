/** The recalled marker of a queued ticket, against what its event log says put it back in the queue. */
module Recalls {
  import opened Prelude
  import opened Orders
  import opened Kitchen
  import opened Tabs
  import opened TabInvariant
  import opened Ledger
  import opened Theorems
  import Tax

  /** What the ticket view shows as recalled. */
  predicate Marked(t: Ticket) {
    t.status == Queued && t.recallCount > 0
  }

  predicate Returns(e: TicketEvent) {
    e == RecalledEvent || e == RefiredEvent
  }

  /** The event of the last move from bumped back to queued. */
  function LastReturn(events: seq<TicketEvent>): Option<TicketEvent> {
    if |events| == 0 then None else
      var front, e := events[..|events| - 1], events[|events| - 1];
      if Replay(front).status == Bumped && Returns(e) then Some(e) else LastReturn(front)
  }

  /** b is the last bump of the log. */
  ghost predicate IsLastBump(events: seq<TicketEvent>, b: nat) {
    b < |events| && events[b] == BumpedEvent && forall j :: b < j < |events| ==> events[j] != BumpedEvent
  }

  /** k is the first recall or refire after position b. */
  ghost predicate IsFirstReturn(events: seq<TicketEvent>, b: nat, k: nat) {
    b < k < |events| && Returns(events[k]) && forall j :: b < j < k ==> !Returns(events[j])
  }

  /** Until something returns it, a ticket stays bumped. */
  lemma {:induction false} StaysBumped(events: seq<TicketEvent>, b: nat)
    requires IsLastBump(events, b) && forall j :: b < j < |events| ==> !Returns(events[j])
    ensures Replay(events).status == Bumped
  {
    if b < |events| - 1 {
      StaysBumped(events[..|events| - 1], b);
    }
  }

  /** Once returned and not bumped again, a ticket stays queued. */
  lemma {:induction false} StaysQueued(events: seq<TicketEvent>, b: nat, k: nat)
    requires IsLastBump(events, b) && IsFirstReturn(events, b, k)
    ensures Replay(events).status == Queued
  {
    if k < |events| - 1 {
      StaysQueued(events[..|events| - 1], b, k);
    }
  }

  /** The first return after the last bump is the last move back to the queue. */
  lemma {:induction false} FirstReturnCounts(events: seq<TicketEvent>, b: nat, k: nat)
    requires IsLastBump(events, b) && IsFirstReturn(events, b, k)
    ensures LastReturn(events) == Some(events[k])
  {
    var front := events[..|events| - 1];
    if k == |events| - 1 {
      StaysBumped(front, b);
    } else {
      StaysQueued(front, b, k);
      FirstReturnCounts(front, b, k);
    }
  }

  /** A queued ticket that was ever bumped has a last bump and a first return after it. */
  lemma {:induction false} QueuedAgain(events: seq<TicketEvent>) returns (b: nat, k: nat)
    requires BumpedEvent in events && Replay(events).status == Queued
    ensures IsLastBump(events, b) && IsFirstReturn(events, b, k)
  {
    var front, e := events[..|events| - 1], events[|events| - 1];
    assert events == front + [e];
    if Replay(front).status == Bumped {
      b := LastBump(front);
      k := |events| - 1;
      if j :| b < j < k && Returns(front[j]) {
        var first := FirstReturnAfter(front, b, j);
        StaysQueued(front, b, first);
      }
    } else {
      b, k := QueuedAgain(front);
    }
  }

  lemma {:induction false} FirstReturnAfter(events: seq<TicketEvent>, b: nat, j: nat) returns (k: nat)
    requires b < j < |events| && Returns(events[j])
    ensures IsFirstReturn(events, b, k)
    decreases j
  {
    if i :| b < i < j && Returns(events[i]) {
      k := FirstReturnAfter(events, b, i);
    } else {
      k := j;
    }
  }

  lemma {:induction false} LastBump(events: seq<TicketEvent>) returns (b: nat)
    requires Replay(events).status == Bumped
    ensures IsLastBump(events, b)
  {
    b := |events| - 1;
    if events[b] != BumpedEvent {
      b := LastBump(events[..|events| - 1]);
    }
  }

  /** A ticket that a recall put back is always marked. */
  lemma {:induction false} RecalledIsCounted(events: seq<TicketEvent>)
    ensures LastReturn(events) == Some(RecalledEvent) ==> Replay(events).recallCount > 0
  {
    if |events| > 0 {
      RecalledIsCounted(events[..|events| - 1]);
    }
  }

  /**
   * In every reachable state a marked ticket was bumped before and returned since; a recall is what put it back exactly
   * when the first recall or refire after its last bump is a recall.
   */
  lemma {:induction false} MarkerTrueIff(db: Db, id: Id, t: Ticket) returns (b: nat, k: nat)
    requires Reachable(db) && id in db.tabs && t in db.tabs[id].tickets && Marked(t)
    ensures IsLastBump(t.events, b) && IsFirstReturn(t.events, b, k)
    ensures LastReturn(t.events) == Some(RecalledEvent) <==> t.events[k] == RecalledEvent
  {
    ReachableOk(db);
    assert TabOk(db.tabs[id], db.clock);
    assert TicketOk(t, db.tabs[id].createdAt, db.clock);
    b, k := QueuedAgain(t.events);
    FirstReturnCounts(t.events, b, k);
  }

  /** In every reachable state a queued ticket that a recall put back is marked. */
  lemma {:induction false} RecalledIsMarked(db: Db, id: Id, t: Ticket)
    requires Reachable(db) && id in db.tabs && t in db.tabs[id].tickets
    requires t.status == Queued && LastReturn(t.events) == Some(RecalledEvent)
    ensures Marked(t)
  {
    ReachableOk(db);
    assert TabOk(db.tabs[id], db.clock);
    assert TicketOk(t, db.tabs[id].createdAt, db.clock);
    RecalledIsCounted(t.events);
  }

  // ---- A marked ticket that a refire put back --------------------------------------------------------

  /** One kitchen action at the same moment. */
  function ActNow(id: Id, i: nat, action: TicketAction, reg: Tax.Registration): Event {
    Event(OnOrder(id, OpTicket(i, action)), 0, reg, true, [])
  }

  lemma {:induction false} ActRuns(db: Db, id: Id, i: nat, action: TicketAction, reg: Tax.Registration)
    requires id in db.tabs && i < |db.tabs[id].tickets| && Act(db.tabs[id].tickets[i], action, db.clock).Ok?
    ensures var db' := Step(db, ActNow(id, i, action, reg));
            && db'.clock == db.clock
            && id in db'.tabs && |db'.tabs[id].tickets| == |db.tabs[id].tickets|
            && Act(db.tabs[id].tickets[i], action, db.clock) == Ok(db'.tabs[id].tickets[i])
  {
  }

  function BumpRecallBumpRefire(id: Id, i: nat, reg: Tax.Registration): seq<Event> {
    [] + [ActNow(id, i, Bump, reg)] + [ActNow(id, i, Recall, reg)] + [ActNow(id, i, Bump, reg)] + [ActNow(id, i, Refire, reg)]
  }

  lemma {:induction false} RunFour(db: Db, a: Event, b: Event, c: Event, d: Event)
    ensures Run(db, [] + [a] + [b] + [c] + [d]) == Step(Step(Step(Step(db, a), b), c), d)
  {
    RunSnoc(db, [], a);
    RunSnoc(db, [] + [a], b);
    RunSnoc(db, [] + [a] + [b], c);
    RunSnoc(db, [] + [a] + [b] + [c], d);
  }

  lemma {:induction false} RefireLog(events: seq<TicketEvent>)
    ensures LastReturn(events + [BumpedEvent] + [RecalledEvent] + [BumpedEvent] + [RefiredEvent]) == Some(RefiredEvent)
  {
    var log := events + [BumpedEvent] + [RecalledEvent];
    ReplaySnoc(log, BumpedEvent);
    assert (log + [BumpedEvent] + [RefiredEvent])[..|log| + 1] == log + [BumpedEvent];
  }

  /** From every state, bump, recall, bump and refire leave a queued ticket marked although a refire put it back. */
  lemma {:induction false} RefiredIsMarkedToo(db: Db, id: Id, i: nat, reg: Tax.Registration)
    requires id in db.tabs && i < |db.tabs[id].tickets| && db.tabs[id].tickets[i].status == Queued
    ensures var db' := Run(db, BumpRecallBumpRefire(id, i, reg));
            && id in db'.tabs && i < |db'.tabs[id].tickets|
            && Marked(db'.tabs[id].tickets[i])
            && LastReturn(db'.tabs[id].tickets[i].events) == Some(RefiredEvent)
  {
    RunFour(db, ActNow(id, i, Bump, reg), ActNow(id, i, Recall, reg), ActNow(id, i, Bump, reg), ActNow(id, i, Refire, reg));
    ActRuns(db, id, i, Bump, reg);
    var db1 := Step(db, ActNow(id, i, Bump, reg));
    ActRuns(db1, id, i, Recall, reg);
    var db2 := Step(db1, ActNow(id, i, Recall, reg));
    ActRuns(db2, id, i, Bump, reg);
    var db3 := Step(db2, ActNow(id, i, Bump, reg));
    ActRuns(db3, id, i, Refire, reg);
    RefireLog(db.tabs[id].tickets[i].events);
  }

  // ---- Such a ticket exists --------------------------------------------------------------------------

  lemma {:induction false} FreshTicketsQueued(tickets: seq<Ticket>, unfired: seq<Line>, route: Line -> Option<Id>, keys: seq<Option<Id>>, now: nat)
    requires forall t :: t in tickets ==> t.status == Queued
    ensures forall t :: t in FireGroups(tickets, unfired, route, keys, now) ==> t.status == Queued
  {
    if |keys| > 0 {
      FreshTicketsQueued(tickets, unfired, route, keys[..|keys| - 1], now);
    }
  }

  lemma {:induction false} PlacedQueued(country: Tax.Country, outlet: Id, env: Env, items: seq<Placement>)
    ensures forall t :: t in Place(country, outlet, env, items).tickets ==> t.status == Queued
  {
    PlaceItemsFrame(NewTab(country, outlet, env.now), items);
    var lines := PlaceItems(NewTab(country, outlet, env.now), items).lines;
    var route := RouteOf(env.stations, outlet);
    FreshTicketsQueued([], Unfired(lines, []), route, Keys(Unfired(lines, []), route), env.now);
  }

  lemma {:induction false} CountedIsTicketed(tickets: seq<Ticket>, id: Id)
    requires Count(tickets, id) == 1
    ensures |tickets| > 0
  {
  }

  lemma {:induction false} PlacedLine(tab: Tab, p: Placement)
    requires p.item.NewLine?
    ensures var lines := PlaceItems(tab, [p]).lines;
            |lines| == |tab.lines| + 1 && !lines[|tab.lines|].voided && lines[|tab.lines|].kind.Item?
  {
    assert [p][..0] == [] && PlaceItems(tab, []) == tab;
  }

  lemma {:induction false} SentHasTicket(lines: seq<Line>, tickets: seq<Ticket>, i: nat)
    requires AllSent(lines, tickets) && i < |lines| && !lines[i].voided && lines[i].kind.Item?
    ensures |tickets| > 0
  {
    assert lines[i] in lines;
    CountedIsTicketed(tickets, lines[i].id);
  }

  /** A guest order for one plain item has a queued ticket. */
  lemma {:induction false} PlacedIsQueued(country: Tax.Country, outlet: Id, env: Env, p: Placement)
    requires p.item.NewLine?
    ensures var tickets := Place(country, outlet, env, [p]).tickets;
            |tickets| > 0 && tickets[0].status == Queued
  {
    PlaceOk(country, outlet, env, [p]);
    PlacedQueued(country, outlet, env, [p]);
    PlacedLine(NewTab(country, outlet, env.now), p);
    var tab := Place(country, outlet, env, [p]);
    SentHasTicket(tab.lines, tab.tickets, 0);
    assert tab.tickets[0] in tab.tickets;
  }

  /** The marker is not what it says: a reachable ticket is marked and was put back by a refire. */
  lemma {:induction false} MarkerIsWrong(country: Tax.Country, reg: Tax.Registration) returns (db: Db)
    ensures Reachable(db) && 0 in db.tabs && |db.tabs[0].tickets| > 0
    ensures Marked(db.tabs[0].tickets[0]) && LastReturn(db.tabs[0].tickets[0].events) == Some(RefiredEvent)
  {
    var p := Placement(NewLine(None, 1, 0, []), None);
    var e := Event(PlaceOrder(0, 0, [p]), 0, reg, true, []);
    var placed := Step(Start(country), e);
    PlacedIsQueued(country, 0, EnvAt(0, e), p);
    RefiredIsMarkedToo(placed, 0, 0, reg);
    db := Run(placed, BumpRecallBumpRefire(0, 0, reg));
    RunAppends(Start(country), [e], BumpRecallBumpRefire(0, 0, reg));
    assert [e][..0] == [];
    assert Run(Start(country), [e]) == placed;
  }
}
