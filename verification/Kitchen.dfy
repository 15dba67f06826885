/** Kitchen tickets: firing lines to stations, add-on batches, and bump / recall / refire. */
module Kitchen {
  import opened Prelude
  import opened Orders

  datatype TicketStatus = Queued | Bumped

  datatype TicketEvent = BumpedEvent | RecalledEvent | RefiredEvent | AddOnFiredEvent

  datatype TicketLine = TicketLine(lineId: Id, quantity: Qty, batch: nat, voided: bool)

  /** A ticket is never deleted, so its place in the order's list identifies it. */
  datatype Ticket = Ticket(
    station: Option<Id>,
    status: TicketStatus,
    recallCount: nat,
    firedAt: nat,
    bumpedAt: Option<nat>,
    lines: seq<TicketLine>,
    events: seq<TicketEvent>)

  /** How far back a bumped ticket may be reopened, in milliseconds. */
  const BUMPED_WINDOW_MS: nat := 12 * 60 * 60 * 1000

  // ---- Routing -----------------------------------------------------------------------------------

  datatype Station = Station(id: Id, outlet: Id, name: string, deleted: bool)

  predicate LiveAt(st: Station, outlet: Id) {
    st.outlet == outlet && !st.deleted
  }

  /** The first station in the list (oldest first) that satisfies p. */
  function First(stations: seq<Station>, p: Station -> bool): (r: Option<Station>)
    ensures r.Some? ==> r.value in stations && p(r.value)
    ensures r.None? ==> forall st :: st in stations ==> !p(st)
  {
    if |stations| == 0 then None
    else if p(stations[0]) then Some(stations[0])
    else
      assert stations == [stations[0]] + stations[1..];
      First(stations[1..], p)
  }

  function IdOf(st: Option<Station>): Option<Id> {
    if st.Some? then Some(st.value.id) else None
  }

  function DefaultStation(stations: seq<Station>, outlet: Id): Option<Id> {
    IdOf(First(stations, (st: Station) => LiveAt(st, outlet)))
  }

  /** An item's station, or the same-named one at this outlet, or the outlet's default. */
  function RouteStation(stations: seq<Station>, outlet: Id, wanted: Option<Id>): Option<Id> {
    if wanted.None? then DefaultStation(stations, outlet) else
      var home := First(stations, (st: Station) => st.id == wanted.value);
      if home.None? then DefaultStation(stations, outlet)
      else if LiveAt(home.value, outlet) then Some(home.value.id)
      else
        var twin := First(stations, (st: Station) => LiveAt(st, outlet) && st.name == home.value.name);
        if twin.Some? then Some(twin.value.id) else DefaultStation(stations, outlet)
  }

  /** A line goes to a live station of the order's own outlet; unrouted exactly when the outlet has none. */
  lemma {:induction false} RouteStaysAtOutlet(stations: seq<Station>, outlet: Id, wanted: Option<Id>)
    ensures RouteStation(stations, outlet, wanted).Some? ==>
              exists st :: st in stations && LiveAt(st, outlet) && RouteStation(stations, outlet, wanted) == Some(st.id)
    ensures RouteStation(stations, outlet, wanted).None? <==> forall st :: st in stations ==> !LiveAt(st, outlet)
  {
    var live := First(stations, (st: Station) => LiveAt(st, outlet));
    if wanted.Some? {
      var home := First(stations, (st: Station) => st.id == wanted.value);
      if home.Some? && !LiveAt(home.value, outlet) {
        var twin := First(stations, (st: Station) => LiveAt(st, outlet) && st.name == home.value.name);
      }
    }
  }

  function RouteOf(stations: seq<Station>, outlet: Id): Line -> Option<Id> {
    (l: Line) => RouteStation(stations, outlet, if l.kind.Item? then l.kind.station else None)
  }

  // ---- Counting a line's ticket lines --------------------------------------------------------------

  function IsFor(id: Id): TicketLine -> int {
    (tl: TicketLine) => if tl.lineId == id then 1 else 0
  }

  function OnTicket(id: Id): Ticket -> int {
    (t: Ticket) => SumBy(t.lines, IsFor(id))
  }

  /** How many ticket lines the kitchen has for an order line. */
  function Count(tickets: seq<Ticket>, id: Id): nat {
    CountNonNegative(tickets, id);
    SumBy(tickets, OnTicket(id))
  }

  lemma {:induction false} CountNonNegative(tickets: seq<Ticket>, id: Id)
    ensures forall t :: t in tickets ==> 0 <= OnTicket(id)(t)
    ensures 0 <= SumBy(tickets, OnTicket(id))
  {
    forall t | t in tickets
      ensures 0 <= OnTicket(id)(t)
    {
      SumByNonNegative(t.lines, IsFor(id));
    }
    SumByNonNegative(tickets, OnTicket(id));
  }

  lemma {:induction false} CountPositive(tickets: seq<Ticket>, t: Ticket, tl: TicketLine)
    requires t in tickets && tl in t.lines
    ensures Count(tickets, tl.lineId) >= 1
  {
    CountNonNegative(tickets, tl.lineId);
    SumByMember(t.lines, IsFor(tl.lineId), tl);
    SumByMember(tickets, OnTicket(tl.lineId), t);
  }

  // ---- Firing --------------------------------------------------------------------------------------

  /** Billed item lines the kitchen does not have yet. */
  function NeedsFiring(tickets: seq<Ticket>): Line -> bool {
    (l: Line) => !l.voided && l.kind.Item? && Count(tickets, l.id) == 0
  }

  function Unfired(lines: seq<Line>, tickets: seq<Ticket>): seq<Line> {
    Filter(lines, NeedsFiring(tickets))
  }

  /** The distinct stations of the lines, in order of first appearance. */
  function Keys(lines: seq<Line>, route: Line -> Option<Id>): seq<Option<Id>> {
    if |lines| == 0 then [] else
      var keys := Keys(lines[..|lines| - 1], route);
      var key := route(lines[|lines| - 1]);
      if key in keys then keys else keys + [key]
  }

  function RoutedTo(route: Line -> Option<Id>, key: Option<Id>): Line -> bool {
    (l: Line) => route(l) == key
  }

  /** The station's most recently fired ticket of this order. */
  function Latest(tickets: seq<Ticket>, station: Option<Id>): (r: Option<nat>)
    ensures r.Some? ==> r.value < |tickets| && tickets[r.value].station == station
  {
    if |tickets| == 0 then None else
      var n := |tickets| - 1;
      var best := Latest(tickets[..n], station);
      if tickets[n].station == station && (best.None? || tickets[best.value].firedAt <= tickets[n].firedAt) then Some(n) else best
  }

  function MaxBatch(lines: seq<TicketLine>): nat {
    if |lines| == 0 then 0 else
      var rest := MaxBatch(lines[..|lines| - 1]);
      if rest < lines[|lines| - 1].batch then lines[|lines| - 1].batch else rest
  }

  function NewTicketLines(group: seq<Line>, batch: nat): seq<TicketLine> {
    if |group| == 0 then [] else
      NewTicketLines(group[..|group| - 1], batch) + [TicketLine(group[|group| - 1].id, group[|group| - 1].quantity, batch, false)]
  }

  /** One station's lines: the next add-on batch of its queued ticket, or a new ticket. */
  function FireGroup(tickets: seq<Ticket>, station: Option<Id>, group: seq<Line>, now: nat): seq<Ticket> {
    var latest := Latest(tickets, station);
    if latest.Some? && tickets[latest.value].status == Queued then
      var t := tickets[latest.value];
      tickets[latest.value := t.(lines := t.lines + NewTicketLines(group, MaxBatch(t.lines) + 1), events := t.events + [AddOnFiredEvent])]
    else
      tickets + [Ticket(station, Queued, 0, now, None, NewTicketLines(group, 0), [])]
  }

  function FireGroups(tickets: seq<Ticket>, unfired: seq<Line>, route: Line -> Option<Id>, keys: seq<Option<Id>>, now: nat): seq<Ticket> {
    if |keys| == 0 then tickets else
      var key := keys[|keys| - 1];
      FireGroup(FireGroups(tickets, unfired, route, keys[..|keys| - 1], now), key, Filter(unfired, RoutedTo(route, key)), now)
  }

  /** Fires every billed item line the kitchen does not have yet, grouped by station. */
  function FireOnSend(lines: seq<Line>, tickets: seq<Ticket>, route: Line -> Option<Id>, now: nat): seq<Ticket> {
    var unfired := Unfired(lines, tickets);
    FireGroups(tickets, unfired, route, Keys(unfired, route), now)
  }

  // ---- The kitchen invariant -------------------------------------------------------------------------

  /** Batches start at 0 and never skip. */
  ghost predicate Batches(lines: seq<TicketLine>) {
    && |lines| > 0
    && lines[0].batch == 0
    && forall i, j :: 0 <= i < j < |lines| && j == i + 1 ==> lines[i].batch <= lines[j].batch <= lines[i].batch + 1
  }

  datatype Replayed = Replayed(status: TicketStatus, recallCount: nat)

  /** What the append-only event log says a ticket that started queued has become. */
  function Replay(events: seq<TicketEvent>): Replayed {
    if |events| == 0 then Replayed(Queued, 0) else ReplayOne(Replay(events[..|events| - 1]), events[|events| - 1])
  }

  function ReplayOne(before: Replayed, e: TicketEvent): Replayed {
    match e
    case BumpedEvent => before.(status := Bumped)
    case RecalledEvent => Replayed(Queued, before.recallCount + 1)
    case RefiredEvent => before.(status := Queued)
    case AddOnFiredEvent => before
  }

  lemma {:induction false} ReplaySnoc(events: seq<TicketEvent>, e: TicketEvent)
    ensures Replay(events + [e]) == ReplayOne(Replay(events), e)
  {
    assert (events + [e])[..|events|] == events;
  }

  ghost predicate TicketOk(t: Ticket, createdAt: nat, clock: nat) {
    && Batches(t.lines)
    && Replay(t.events) == Replayed(t.status, t.recallCount)
    && (t.status == Bumped || t.recallCount > 0 ==> BumpedEvent in t.events)
    && (t.status == Bumped ==> t.bumpedAt.Some?)
    && createdAt <= t.firedAt <= clock
    && (t.bumpedAt.Some? ==> t.firedAt <= t.bumpedAt.value <= clock)
  }

  ghost predicate Matches(l: Line, tl: TicketLine) {
    l.id == tl.lineId && l.kind.Item? && l.quantity == tl.quantity && l.voided == tl.voided
  }

  ghost predicate TicketMatches(lines: seq<Line>, t: Ticket) {
    forall tl :: tl in t.lines ==> exists l :: l in lines && Matches(l, tl)
  }

  /** Every order line is on at most one ticket line, and that ticket line agrees with it. */
  ghost predicate KitchenOk(lines: seq<Line>, tickets: seq<Ticket>, createdAt: nat, clock: nat) {
    && (forall t :: t in tickets ==> TicketOk(t, createdAt, clock))
    && (forall t :: t in tickets ==> TicketMatches(lines, t))
    && (forall id :: Count(tickets, id) <= 1)
  }

  // ---- Firing keeps the invariant ----------------------------------------------------------------------

  function HasId(id: Id): Line -> int {
    (l: Line) => if l.id == id then 1 else 0
  }

  lemma {:induction false} NewTicketLinesAt(group: seq<Line>, batch: nat, i: nat)
    requires i < |group|
    ensures |NewTicketLines(group, batch)| == |group|
    ensures NewTicketLines(group, batch)[i] == TicketLine(group[i].id, group[i].quantity, batch, false)
  {
    if |group| == 1 {
      assert NewTicketLines(group[..0], batch) == [];
    } else {
      NewTicketLinesAt(group[..|group| - 1], batch, if i < |group| - 1 then i else 0);
    }
  }

  lemma {:induction false} NewTicketLinesCount(group: seq<Line>, batch: nat, id: Id)
    ensures SumBy(NewTicketLines(group, batch), IsFor(id)) == SumBy(group, HasId(id))
  {
    if |group| > 0 {
      var front, last := group[..|group| - 1], group[|group| - 1];
      NewTicketLinesCount(front, batch, id);
      SumBySnoc(NewTicketLines(front, batch), TicketLine(last.id, last.quantity, batch, false), IsFor(id));
    }
  }

  lemma {:induction false} FireGroupCount(tickets: seq<Ticket>, station: Option<Id>, group: seq<Line>, now: nat, id: Id)
    ensures Count(FireGroup(tickets, station, group, now), id) == Count(tickets, id) + SumBy(group, HasId(id))
  {
    var latest := Latest(tickets, station);
    var tickets' := FireGroup(tickets, station, group, now);
    if latest.Some? && tickets[latest.value].status == Queued {
      var t := tickets[latest.value];
      var more := NewTicketLines(group, MaxBatch(t.lines) + 1);
      NewTicketLinesCount(group, MaxBatch(t.lines) + 1, id);
      SumByConcat(t.lines, more, IsFor(id));
      SumByUpdate(tickets, latest.value, tickets'[latest.value], OnTicket(id));
    } else {
      NewTicketLinesCount(group, 0, id);
      SumBySnoc(tickets, tickets'[|tickets|], OnTicket(id));
    }
  }

  /** In a list with distinct ids, a line occurs once among the lines that pass p, if it passes. */
  lemma {:induction false} FilteredOnce(lines: seq<Line>, p: Line -> bool, l: Line)
    requires Distinct(lines) && l in lines
    ensures SumBy(Filter(lines, p), HasId(l.id)) == if p(l) then 1 else 0
  {
    var front, last := lines[..|lines| - 1], lines[|lines| - 1];
    SumBySnoc(Filter(front, p), last, HasId(l.id));
    if last == l {
      forall m | m in front
        ensures m.id != l.id
      {
        var i :| 0 <= i < |front| && front[i] == m;
        assert lines[i] == m;
      }
      AbsentFromFilter(front, p, l.id);
    } else {
      assert l in front;
      assert last.id != l.id by {
        SameIdOnly(lines, last, l);
      }
      FilteredOnce(front, p, l);
    }
  }

  lemma {:induction false} SameIdOnly(lines: seq<Line>, a: Line, b: Line)
    requires Distinct(lines) && a in lines && b in lines && a != b
    ensures a.id != b.id
  {
    if a.id == b.id {
      SameId(lines, a, b);
    }
  }

  lemma {:induction false} AbsentFromFilter(lines: seq<Line>, p: Line -> bool, id: Id)
    requires forall m :: m in lines ==> m.id != id
    ensures SumBy(Filter(lines, p), HasId(id)) == 0
  {
    if |lines| > 0 {
      var front, last := lines[..|lines| - 1], lines[|lines| - 1];
      assert last in lines;
      AbsentFromFilter(front, p, id);
      SumBySnoc(Filter(front, p), last, HasId(id));
    }
  }

  ghost predicate DistinctKeys(keys: seq<Option<Id>>) {
    forall i, j :: 0 <= i < j < |keys| ==> keys[i] != keys[j]
  }

  /** Each unfired line gains one ticket line when its station comes up, and none otherwise. */
  lemma {:induction false} FireGroupsCount(tickets: seq<Ticket>, unfired: seq<Line>, route: Line -> Option<Id>, keys: seq<Option<Id>>, now: nat, l: Line)
    requires Distinct(unfired) && l in unfired && DistinctKeys(keys)
    ensures Count(FireGroups(tickets, unfired, route, keys, now), l.id) == Count(tickets, l.id) + if route(l) in keys then 1 else 0
  {
    if |keys| > 0 {
      var front, key := keys[..|keys| - 1], keys[|keys| - 1];
      FireGroupsCount(tickets, unfired, route, front, now, l);
      FireGroupCount(FireGroups(tickets, unfired, route, front, now), key, Filter(unfired, RoutedTo(route, key)), now, l.id);
      FilteredOnce(unfired, RoutedTo(route, key), l);
      assert key !in front;
    }
  }

  lemma {:induction false} FireGroupsOthers(tickets: seq<Ticket>, unfired: seq<Line>, route: Line -> Option<Id>, keys: seq<Option<Id>>, now: nat, id: Id)
    requires forall m :: m in unfired ==> m.id != id
    ensures Count(FireGroups(tickets, unfired, route, keys, now), id) == Count(tickets, id)
  {
    if |keys| > 0 {
      var front, key := keys[..|keys| - 1], keys[|keys| - 1];
      FireGroupsOthers(tickets, unfired, route, front, now, id);
      FireGroupCount(FireGroups(tickets, unfired, route, front, now), key, Filter(unfired, RoutedTo(route, key)), now, id);
      AbsentFromFilter(unfired, RoutedTo(route, key), id);
    }
  }

  lemma {:induction false} KeysCover(lines: seq<Line>, route: Line -> Option<Id>)
    ensures DistinctKeys(Keys(lines, route))
    ensures forall l :: l in lines ==> route(l) in Keys(lines, route)
    ensures forall k :: k in Keys(lines, route) ==> exists l :: l in lines && route(l) == k
  {
    if |lines| > 0 {
      var front, last := lines[..|lines| - 1], lines[|lines| - 1];
      KeysCover(front, route);
      assert lines == front + [last];
      forall k | k in Keys(lines, route)
        ensures exists l :: l in lines && route(l) == k
      {
        if k in Keys(front, route) {
          var l :| l in front && route(l) == k;
          assert l in lines;
        } else {
          assert last in lines;
        }
      }
    }
  }

  lemma {:induction false} MaxBatchIsLast(lines: seq<TicketLine>)
    requires Batches(lines)
    ensures MaxBatch(lines) == lines[|lines| - 1].batch
  {
    if |lines| > 1 {
      MaxBatchIsLast(lines[..|lines| - 1]);
    }
  }

  /** A ticket's batch numbers are exactly 0 to its largest. */
  lemma {:induction false} BatchesExact(lines: seq<TicketLine>, b: nat)
    requires Batches(lines)
    ensures (exists tl :: tl in lines && tl.batch == b) <==> b <= MaxBatch(lines)
  {
    MaxBatchIsLast(lines);
    var front, last := lines[..|lines| - 1], lines[|lines| - 1];
    assert lines == front + [last];
    if |lines| == 1 {
      assert last in lines;
      if b == 0 {
        assert last.batch == b;
      }
    } else {
      BatchesExact(front, b);
      MaxBatchIsLast(front);
      if b <= MaxBatch(front) {
        var tl :| tl in front && tl.batch == b;
        assert tl in lines;
      } else if b == last.batch {
        assert last in lines;
      }
    }
  }

  lemma {:induction false} NewBatch(group: seq<Line>, batch: nat)
    requires |group| > 0
    ensures |NewTicketLines(group, batch)| == |group|
    ensures forall k :: 0 <= k < |group| ==> NewTicketLines(group, batch)[k].batch == batch
  {
    NewTicketLinesAt(group, batch, 0);
    forall k | 0 <= k < |group|
      ensures NewTicketLines(group, batch)[k].batch == batch
    {
      NewTicketLinesAt(group, batch, k);
    }
  }

  lemma {:induction false} AddOnTicketOk(t: Ticket, group: seq<Line>, createdAt: nat, now: nat)
    requires |group| > 0 && TicketOk(t, createdAt, now)
    ensures TicketOk(t.(lines := t.lines + NewTicketLines(group, MaxBatch(t.lines) + 1), events := t.events + [AddOnFiredEvent]), createdAt, now)
  {
    MaxBatchIsLast(t.lines);
    NewBatch(group, MaxBatch(t.lines) + 1);
    ReplaySnoc(t.events, AddOnFiredEvent);
  }

  lemma {:induction false} NewTicketOk(station: Option<Id>, group: seq<Line>, createdAt: nat, now: nat)
    requires |group| > 0 && createdAt <= now
    ensures TicketOk(Ticket(station, Queued, 0, now, None, NewTicketLines(group, 0), []), createdAt, now)
  {
    NewBatch(group, 0);
  }

  lemma {:induction false} FireGroupTicketOk(tickets: seq<Ticket>, station: Option<Id>, group: seq<Line>, createdAt: nat, now: nat)
    requires |group| > 0 && createdAt <= now
    requires forall t :: t in tickets ==> TicketOk(t, createdAt, now)
    ensures forall t :: t in FireGroup(tickets, station, group, now) ==> TicketOk(t, createdAt, now)
  {
    var latest := Latest(tickets, station);
    if latest.Some? && tickets[latest.value].status == Queued {
      assert tickets[latest.value] in tickets;
      AddOnTicketOk(tickets[latest.value], group, createdAt, now);
    } else {
      NewTicketOk(station, group, createdAt, now);
    }
  }

  lemma {:induction false} FireGroupMatches(lines: seq<Line>, tickets: seq<Ticket>, station: Option<Id>, group: seq<Line>, now: nat)
    requires forall t :: t in tickets ==> TicketMatches(lines, t)
    requires forall l :: l in group ==> l in lines && l.kind.Item? && !l.voided
    ensures forall t :: t in FireGroup(tickets, station, group, now) ==> TicketMatches(lines, t)
  {
    var latest := Latest(tickets, station);
    forall b, tl | tl in NewTicketLines(group, b)
      ensures exists l :: l in lines && Matches(l, tl)
    {
      var i :| 0 <= i < |NewTicketLines(group, b)| && NewTicketLines(group, b)[i] == tl;
      if |group| > 0 {
        NewTicketLinesAt(group, b, 0);
        NewTicketLinesAt(group, b, i);
        assert Matches(group[i], tl);
      }
    }
    if latest.Some? && tickets[latest.value].status == Queued {
      assert tickets[latest.value] in tickets;
    }
  }

  lemma {:induction false} FireGroupsOk(lines: seq<Line>, tickets: seq<Ticket>, unfired: seq<Line>, route: Line -> Option<Id>, keys: seq<Option<Id>>, createdAt: nat, now: nat)
    requires createdAt <= now
    requires forall t :: t in tickets ==> TicketOk(t, createdAt, now) && TicketMatches(lines, t)
    requires forall l :: l in unfired ==> l in lines && l.kind.Item? && !l.voided
    requires forall k :: k in keys ==> exists l :: l in unfired && route(l) == k
    ensures forall t :: t in FireGroups(tickets, unfired, route, keys, now) ==> TicketOk(t, createdAt, now) && TicketMatches(lines, t)
  {
    if |keys| > 0 {
      var front, key := keys[..|keys| - 1], keys[|keys| - 1];
      assert forall k :: k in front ==> k in keys;
      FireGroupsOk(lines, tickets, unfired, route, front, createdAt, now);
      var group := Filter(unfired, RoutedTo(route, key));
      forall l
        ensures l in group <==> l in unfired && route(l) == key
      {
        FilterMember(unfired, RoutedTo(route, key), l);
      }
      assert key in keys;
      var l :| l in unfired && route(l) == key;
      assert l in group;
      var before := FireGroups(tickets, unfired, route, front, now);
      FireGroupTicketOk(before, key, group, createdAt, now);
      FireGroupMatches(lines, before, key, group, now);
    }
  }

  /** One send adds each unfired line once and leaves every other line's count alone. */
  lemma {:induction false} FireOnSendCount(lines: seq<Line>, tickets: seq<Ticket>, route: Line -> Option<Id>, now: nat, l: Line)
    requires Distinct(lines) && l in lines
    ensures Count(FireOnSend(lines, tickets, route, now), l.id) == if NeedsFiring(tickets)(l) then 1 else Count(tickets, l.id)
  {
    var unfired := Unfired(lines, tickets);
    FilterDistinct(lines, NeedsFiring(tickets));
    KeysCover(unfired, route);
    FilterMember(lines, NeedsFiring(tickets), l);
    if l in unfired {
      FireGroupsCount(tickets, unfired, route, Keys(unfired, route), now, l);
    } else {
      forall m | m in unfired
        ensures m.id != l.id
      {
        FilterMember(lines, NeedsFiring(tickets), m);
        if m.id == l.id {
          SameId(lines, l, m);
        }
      }
      FireGroupsOthers(tickets, unfired, route, Keys(unfired, route), now, l.id);
    }
  }

  lemma {:induction false} FireOnSendOther(lines: seq<Line>, tickets: seq<Ticket>, route: Line -> Option<Id>, now: nat, id: Id)
    requires forall l :: l in lines ==> l.id != id
    ensures Count(FireOnSend(lines, tickets, route, now), id) == Count(tickets, id)
  {
    var unfired := Unfired(lines, tickets);
    forall m | m in unfired
      ensures m.id != id
    {
      FilterMember(lines, NeedsFiring(tickets), m);
    }
    FireGroupsOthers(tickets, unfired, route, Keys(unfired, route), now, id);
  }

  /** Every ticket after a send is still well formed and matches the order's lines. */
  lemma {:induction false} FireOnSendTickets(lines: seq<Line>, tickets: seq<Ticket>, route: Line -> Option<Id>, createdAt: nat, now: nat)
    requires createdAt <= now
    requires forall t :: t in tickets ==> TicketOk(t, createdAt, now) && TicketMatches(lines, t)
    ensures forall t :: t in FireOnSend(lines, tickets, route, now) ==> TicketOk(t, createdAt, now) && TicketMatches(lines, t)
  {
    var unfired := Unfired(lines, tickets);
    KeysCover(unfired, route);
    forall l | l in unfired
      ensures l in lines && NeedsFiring(tickets)(l)
    {
      FilterMember(lines, NeedsFiring(tickets), l);
    }
    FireGroupsOk(lines, tickets, unfired, route, Keys(unfired, route), createdAt, now);
  }

  /** After a send the kitchen has every billed item line exactly once, and nothing else changed. */
  lemma {:induction false} FireOnSendOk(lines: seq<Line>, tickets: seq<Ticket>, route: Line -> Option<Id>, createdAt: nat, now: nat)
    requires Distinct(lines) && KitchenOk(lines, tickets, createdAt, now) && createdAt <= now
    ensures KitchenOk(lines, FireOnSend(lines, tickets, route, now), createdAt, now)
    ensures forall l :: l in lines && !l.voided && l.kind.Item? ==> Count(FireOnSend(lines, tickets, route, now), l.id) == 1
    ensures forall l :: l in lines && (l.voided || l.kind.Combo?) ==> Count(FireOnSend(lines, tickets, route, now), l.id) == Count(tickets, l.id)
  {
    FireOnSendTickets(lines, tickets, route, createdAt, now);
    forall l | l in lines
      ensures Count(FireOnSend(lines, tickets, route, now), l.id) == if NeedsFiring(tickets)(l) then 1 else Count(tickets, l.id)
    {
      FireOnSendCount(lines, tickets, route, now, l);
    }
    forall id
      ensures Count(FireOnSend(lines, tickets, route, now), id) <= 1
    {
      if l :| l in lines && l.id == id {
        FireOnSendCount(lines, tickets, route, now, l);
      } else {
        FireOnSendOther(lines, tickets, route, now, id);
      }
    }
  }

  // ---- The firing loops ----------------------------------------------------------------------------------

  /** Groups the lines by station in a map, keeping the order of first appearance. */
  method GroupByStation(unfired: seq<Line>, stations: seq<Station>, outlet: Id) returns (keys: seq<Option<Id>>, groups: map<Option<Id>, seq<Line>>)
    ensures keys == Keys(unfired, RouteOf(stations, outlet))
    ensures forall k :: k in groups <==> k in keys
    ensures forall k :: k in groups ==> groups[k] == Filter(unfired, RoutedTo(RouteOf(stations, outlet), k))
  {
    keys, groups := [], map[];
    var route := RouteOf(stations, outlet);
    for i := 0 to |unfired|
      invariant keys == Keys(unfired[..i], route)
      invariant forall k :: k in groups <==> k in keys
      invariant forall k :: k in groups ==> groups[k] == Filter(unfired[..i], RoutedTo(route, k))
    {
      var line := unfired[i];
      var key := RouteStation(stations, outlet, if line.kind.Item? then line.kind.station else None);
      assert unfired[..i + 1] == unfired[..i] + [line];
      assert unfired[..i + 1][..i] == unfired[..i];
      if key in groups {
        groups := groups[key := groups[key] + [line]];
      } else {
        NoneRouted(unfired[..i], route, key);
        keys := keys + [key];
        groups := groups[key := [line]];
      }
    }
    assert unfired[..|unfired|] == unfired;
  }

  lemma {:induction false} NoneRouted(lines: seq<Line>, route: Line -> Option<Id>, key: Option<Id>)
    requires key !in Keys(lines, route)
    ensures Filter(lines, RoutedTo(route, key)) == []
  {
    KeysCover(lines, route);
    var group := Filter(lines, RoutedTo(route, key));
    if |group| > 0 {
      assert group[0] in group;
      FilterMember(lines, RoutedTo(route, key), group[0]);
    }
  }

  /** fireOnSend: group the lines the kitchen lacks, then write each station's ticket. */
  method Fire(lines: seq<Line>, tickets: seq<Ticket>, stations: seq<Station>, outlet: Id, now: nat) returns (fired: seq<Ticket>, count: nat)
    ensures fired == FireOnSend(lines, tickets, RouteOf(stations, outlet), now)
    ensures count == |Unfired(lines, tickets)|
  {
    var unfired := SelectUnfired(lines, tickets);
    count := |unfired|;
    fired := tickets;
    if count > 0 {
      fired := FireStations(tickets, unfired, stations, outlet, now);
    }
  }

  /** The billed item lines without a ticket line, in order. */
  method SelectUnfired(lines: seq<Line>, tickets: seq<Ticket>) returns (unfired: seq<Line>)
    ensures unfired == Unfired(lines, tickets)
  {
    unfired := [];
    for i := 0 to |lines|
      invariant unfired == Unfired(lines[..i], tickets)
    {
      assert lines[..i + 1] == lines[..i] + [lines[i]];
      FilterSnoc(lines[..i], lines[i], NeedsFiring(tickets));
      if !lines[i].voided && lines[i].kind.Item? && Count(tickets, lines[i].id) == 0 {
        unfired := unfired + [lines[i]];
      }
    }
    assert lines[..|lines|] == lines;
  }

  lemma {:induction false} FireGroupsNext(tickets: seq<Ticket>, unfired: seq<Line>, route: Line -> Option<Id>, keys: seq<Option<Id>>, i: nat, now: nat)
    requires i < |keys|
    ensures FireGroups(tickets, unfired, route, keys[..i + 1], now) ==
      FireGroup(FireGroups(tickets, unfired, route, keys[..i], now), keys[i], Filter(unfired, RoutedTo(route, keys[i])), now)
  {
    assert keys[..i + 1][..i] == keys[..i];
  }

  method FireStations(tickets: seq<Ticket>, unfired: seq<Line>, stations: seq<Station>, outlet: Id, now: nat) returns (fired: seq<Ticket>)
    ensures fired == FireGroups(tickets, unfired, RouteOf(stations, outlet), Keys(unfired, RouteOf(stations, outlet)), now)
  {
    fired := tickets;
    var keys, groups := GroupByStation(unfired, stations, outlet);
    ghost var route := RouteOf(stations, outlet);
    for i := 0 to |keys|
      invariant fired == FireGroups(tickets, unfired, route, keys[..i], now)
    {
      FireGroupsNext(tickets, unfired, route, keys, i, now);
      assert keys[i] in keys;
      fired := FireStation(fired, keys[i], groups[keys[i]], now);
    }
    assert keys[..|keys|] == keys;
  }

  method FireStation(tickets: seq<Ticket>, station: Option<Id>, group: seq<Line>, now: nat) returns (fired: seq<Ticket>)
    ensures fired == FireGroup(tickets, station, group, now)
  {
    var latest := Latest(tickets, station);
    var existing := latest.Some? && tickets[latest.value].status == Queued;
    var batch := if existing then MaxBatch(tickets[latest.value].lines) + 1 else 0;
    var added: seq<TicketLine> := [];
    for i := 0 to |group|
      invariant added == NewTicketLines(group[..i], batch)
    {
      assert group[..i + 1][..i] == group[..i];
      added := added + [TicketLine(group[i].id, group[i].quantity, batch, false)];
    }
    assert group[..|group|] == group;
    if existing {
      var t := tickets[latest.value];
      fired := tickets[latest.value := t.(lines := t.lines + added, events := t.events + [AddOnFiredEvent])];
    } else {
      fired := tickets + [Ticket(station, Queued, 0, now, None, added, [])];
    }
  }

  // ---- Bump, recall, refire --------------------------------------------------------------------------------

  datatype TicketAction = Bump | Recall | Refire

  function Act(t: Ticket, action: TicketAction, now: nat): Result<Ticket> {
    match action
    case Bump =>
      if t.status == Bumped then Err(Conflict)
      else Ok(t.(status := Bumped, bumpedAt := Some(now), events := t.events + [BumpedEvent]))
    case Recall =>
      if t.status != Bumped then Err(Conflict)
      else if t.bumpedAt.Some? && now - t.bumpedAt.value > BUMPED_WINDOW_MS then Err(Conflict)
      else Ok(t.(status := Queued, recallCount := t.recallCount + 1, events := t.events + [RecalledEvent]))
    case Refire =>
      Ok(t.(status := Queued, bumpedAt := None, events := t.events + [RefiredEvent]))
  }

  /** A ticket action keeps the ticket's lines and leaves status and recall count as the event log replays them. */
  lemma {:induction false} ActOk(t: Ticket, action: TicketAction, createdAt: nat, clock: nat, now: nat)
    requires TicketOk(t, createdAt, clock) && clock <= now
    ensures Act(t, action, now).Ok? ==>
              var t' := Act(t, action, now).value;
              && TicketOk(t', createdAt, now)
              && t'.lines == t.lines
              && t'.station == t.station
              && t'.firedAt == t.firedAt
              && t.events < t'.events
  {
    match action
    case Bump => ReplaySnoc(t.events, BumpedEvent);
    case Recall => ReplaySnoc(t.events, RecalledEvent);
    case Refire => ReplaySnoc(t.events, RefiredEvent);
  }

  /** Replacing a ticket by one with the same lines changes no count. */
  lemma {:induction false} ActKitchenOk(lines: seq<Line>, tickets: seq<Ticket>, i: nat, t': Ticket, tickets': seq<Ticket>, createdAt: nat, clock: nat, now: nat)
    requires KitchenOk(lines, tickets, createdAt, clock) && clock <= now && i < |tickets|
    requires t'.lines == tickets[i].lines && TicketOk(t', createdAt, now)
    requires tickets' == tickets[i := t']
    ensures KitchenOk(lines, tickets', createdAt, now)
    ensures forall id :: Count(tickets', id) == Count(tickets, id)
  {
    forall id
      ensures Count(tickets', id) == Count(tickets, id)
    {
      SumByUpdate(tickets, i, t', OnTicket(id));
    }
    assert tickets[i] in tickets;
    assert TicketMatches(lines, t');
    forall t | t in tickets'
      ensures TicketOk(t, createdAt, now) && TicketMatches(lines, t)
    {
      assert t == t' || t in tickets;
    }
  }

  // ---- Order-line edits seen from the kitchen -------------------------------------------------------------

  /** The kitchen keeps agreeing with the order while every line it has stays as it was. */
  lemma {:induction false} KitchenKept(lines: seq<Line>, lines': seq<Line>, tickets: seq<Ticket>, createdAt: nat, clock: nat, now: nat)
    requires KitchenOk(lines, tickets, createdAt, clock) && clock <= now
    requires forall l :: l in lines && Count(tickets, l.id) > 0 ==> l in lines'
    ensures KitchenOk(lines', tickets, createdAt, now)
  {
    forall t | t in tickets
      ensures TicketMatches(lines', t)
    {
      forall tl | tl in t.lines
        ensures exists l :: l in lines' && Matches(l, tl)
      {
        var l :| l in lines && Matches(l, tl);
        CountPositive(tickets, t, tl);
        assert l in lines';
      }
    }
  }

  function VoidTicketLine(tl: TicketLine, ids: set<Id>): TicketLine {
    if tl.lineId in ids then tl.(voided := true) else tl
  }

  function VoidTicketLines(lines: seq<TicketLine>, ids: set<Id>): seq<TicketLine> {
    seq(|lines|, i requires 0 <= i < |lines| => VoidTicketLine(lines[i], ids))
  }

  function VoidTicket(t: Ticket, ids: set<Id>): Ticket {
    t.(lines := VoidTicketLines(t.lines, ids))
  }

  /** Strikes the voided lines through on every ticket. */
  function VoidTickets(tickets: seq<Ticket>, ids: set<Id>): seq<Ticket> {
    seq(|tickets|, i requires 0 <= i < |tickets| => VoidTicket(tickets[i], ids))
  }

  lemma {:induction false} VoidTicketCount(lines: seq<TicketLine>, ids: set<Id>, id: Id)
    ensures SumBy(VoidTicketLines(lines, ids), IsFor(id)) == SumBy(lines, IsFor(id))
  {
    if |lines| > 0 {
      VoidTicketCount(lines[..|lines| - 1], ids, id);
      assert VoidTicketLines(lines, ids)[..|lines| - 1] == VoidTicketLines(lines[..|lines| - 1], ids);
    }
  }

  lemma {:induction false} VoidCount(tickets: seq<Ticket>, ids: set<Id>, id: Id)
    ensures Count(VoidTickets(tickets, ids), id) == Count(tickets, id)
  {
    if |tickets| > 0 {
      VoidCount(tickets[..|tickets| - 1], ids, id);
      VoidTicketCount(tickets[|tickets| - 1].lines, ids, id);
      assert VoidTickets(tickets, ids)[..|tickets| - 1] == VoidTickets(tickets[..|tickets| - 1], ids);
    }
  }

  /** Voiding lines on the order and on the tickets together keeps the two in agreement. */
  lemma {:induction false} VoidKitchenOk(lines: seq<Line>, tickets: seq<Ticket>, ids: set<Id>, createdAt: nat, clock: nat, now: nat)
    requires KitchenOk(lines, tickets, createdAt, clock) && clock <= now
    ensures KitchenOk(Void(lines, ids), VoidTickets(tickets, ids), createdAt, now)
  {
    var lines', tickets' := Void(lines, ids), VoidTickets(tickets, ids);
    forall id
      ensures Count(tickets', id) <= 1
    {
      VoidCount(tickets, ids, id);
    }
    forall t' | t' in tickets'
      ensures TicketOk(t', createdAt, now) && TicketMatches(lines', t')
    {
      var k :| 0 <= k < |tickets'| && tickets'[k] == t';
      var t := tickets[k];
      assert t in tickets;
      forall tl' | tl' in t'.lines
        ensures exists l :: l in lines' && Matches(l, tl')
      {
        var i :| 0 <= i < |t'.lines| && t'.lines[i] == tl';
        assert t.lines[i] in t.lines;
        var l :| l in lines && Matches(l, t.lines[i]);
        var j :| 0 <= j < |lines| && lines[j] == l;
        assert Matches(lines'[j], tl');
      }
    }
  }
}
