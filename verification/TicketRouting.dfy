/** Where a send puts every line: on its own station, as an add-on of a ticket still queued there or on a new ticket. */
module TicketRouting {
  import opened Prelude
  import opened Orders
  import opened Kitchen

  // ---- Stations -----------------------------------------------------------------------------------

  /** The k-th station is the first of the outlet's live ones that satisfies p. */
  ghost predicate IsFirst(stations: seq<Station>, outlet: Id, p: Station -> bool, k: int) {
    && 0 <= k < |stations| && stations[k].outlet == outlet && !stations[k].deleted && p(stations[k])
    && forall j :: 0 <= j < k ==> !(stations[j].outlet == outlet && !stations[j].deleted && p(stations[j]))
  }

  function Any(): Station -> bool {
    (st: Station) => true
  }

  function SameName(name: string): Station -> bool {
    (st: Station) => st.name == name
  }

  lemma {:induction false} FirstIs(stations: seq<Station>, outlet: Id, p: Station -> bool, q: Station -> bool, k: int)
    requires IsFirst(stations, outlet, p, k) && forall st :: q(st) <==> LiveAt(st, outlet) && p(st)
    ensures First(stations, q) == Some(stations[k])
  {
    if k > 0 {
      assert !q(stations[0]);
      var rest := stations[1..];
      assert forall j :: 0 <= j < |rest| ==> rest[j] == stations[j + 1];
      FirstIs(rest, outlet, p, q, k - 1);
    }
  }

  ghost predicate UniqueStations(stations: seq<Station>) {
    forall i, j :: 0 <= i < j < |stations| ==> stations[i].id != stations[j].id
  }

  lemma {:induction false} FirstById(stations: seq<Station>, id: Id, q: Station -> bool, k: int)
    requires UniqueStations(stations) && 0 <= k < |stations| && stations[k].id == id && forall st :: q(st) <==> st.id == id
    ensures First(stations, q) == Some(stations[k])
  {
    if k > 0 {
      var rest := stations[1..];
      assert forall j :: 0 <= j < |rest| ==> rest[j] == stations[j + 1];
      FirstById(rest, id, q, k - 1);
    }
  }

  /** An item's own station wins while it is live at the outlet. */
  lemma {:induction false} OwnStationFirst(stations: seq<Station>, outlet: Id, k: int)
    requires UniqueStations(stations) && 0 <= k < |stations| && LiveAt(stations[k], outlet)
    ensures RouteStation(stations, outlet, Some(stations[k].id)) == Some(stations[k].id)
  {
    FirstById(stations, stations[k].id, (st: Station) => st.id == stations[k].id, k);
  }

  /** Otherwise the outlet's first live station of the same name takes the item. */
  lemma {:induction false} TwinStationSecond(stations: seq<Station>, outlet: Id, k: int, twin: int)
    requires UniqueStations(stations) && 0 <= k < |stations| && !LiveAt(stations[k], outlet)
    requires IsFirst(stations, outlet, SameName(stations[k].name), twin)
    ensures RouteStation(stations, outlet, Some(stations[k].id)) == Some(stations[twin].id)
  {
    var home := stations[k];
    FirstById(stations, home.id, (st: Station) => st.id == home.id, k);
    FirstIs(stations, outlet, SameName(home.name), (st: Station) => LiveAt(st, outlet) && st.name == home.name, twin);
  }

  /** An item without a station, or whose station has no namesake here, goes to the outlet's first live station. */
  lemma {:induction false} DefaultStationLast(stations: seq<Station>, outlet: Id, wanted: Option<Id>, k: int)
    requires UniqueStations(stations) && IsFirst(stations, outlet, Any(), k)
    requires wanted.Some? ==> forall j :: 0 <= j < |stations| && stations[j].id == wanted.value ==>
      !LiveAt(stations[j], outlet) && forall i :: 0 <= i < |stations| && LiveAt(stations[i], outlet) ==> stations[i].name != stations[j].name
    ensures RouteStation(stations, outlet, wanted) == Some(stations[k].id)
  {
    FirstIs(stations, outlet, Any(), (st: Station) => LiveAt(st, outlet), k);
    if wanted.Some? {
      var home := First(stations, (st: Station) => st.id == wanted.value);
      if home.Some? {
        var j :| 0 <= j < |stations| && stations[j] == home.value;
        var twin := First(stations, (st: Station) => LiveAt(st, outlet) && st.name == home.value.name);
      }
    }
  }

  // ---- The station's latest ticket ------------------------------------------------------------------

  /** The station's most recently fired ticket; of two fired at once, the later row. */
  ghost predicate IsLatest(tickets: seq<Ticket>, station: Option<Id>, i: nat) {
    && i < |tickets| && tickets[i].station == station
    && forall j :: 0 <= j < |tickets| && tickets[j].station == station ==> tickets[j].firedAt <= tickets[i].firedAt && (j > i ==> tickets[j].firedAt < tickets[i].firedAt)
  }

  lemma {:induction false} LatestIs(tickets: seq<Ticket>, station: Option<Id>)
    ensures Latest(tickets, station).Some? ==> IsLatest(tickets, station, Latest(tickets, station).value)
    ensures Latest(tickets, station).None? ==> forall j :: 0 <= j < |tickets| ==> tickets[j].station != station
  {
    if |tickets| > 0 {
      var front := tickets[..|tickets| - 1];
      LatestIs(front, station);
      assert forall j :: 0 <= j < |front| ==> front[j] == tickets[j];
    }
  }

  /** Rows of other stations do not matter for a station's latest ticket. */
  lemma {:induction false} LatestElsewhere(tickets: seq<Ticket>, tickets': seq<Ticket>, station: Option<Id>)
    requires |tickets| <= |tickets'|
    requires forall j :: 0 <= j < |tickets| ==> tickets'[j].station == tickets[j].station && (tickets[j].station == station ==> tickets'[j] == tickets[j])
    requires forall j :: |tickets| <= j < |tickets'| ==> tickets'[j].station != station
    ensures Latest(tickets', station) == Latest(tickets, station)
    decreases |tickets'|
  {
    if |tickets'| > |tickets| {
      assert tickets'[..|tickets'| - 1][..|tickets|] == tickets'[..|tickets|];
      LatestElsewhere(tickets, tickets'[..|tickets'| - 1], station);
    } else if |tickets| > 0 {
      LatestElsewhere(tickets[..|tickets| - 1], tickets'[..|tickets| - 1], station);
    }
  }

  // ---- Firing ----------------------------------------------------------------------------------------------

  /** A queued latest ticket takes the station's lines; otherwise they open a new one. */
  ghost predicate TakesAddOn(tickets: seq<Ticket>, station: Option<Id>, i: nat) {
    IsLatest(tickets, station, i) && tickets[i].status == Queued
  }

  /** A ticket has the order line, in the quantity ordered, from position n of its lines on. */
  ghost predicate Holds(t: Ticket, n: nat, l: Line) {
    exists k :: n <= k < |t.lines| && t.lines[k].lineId == l.id && t.lines[k].quantity == l.quantity && !t.lines[k].voided
  }

  /** Nothing on an old ticket but new lines at its end and the log of its add-ons. */
  ghost predicate Grown(t: Ticket, t': Ticket) {
    t' == t.(lines := t'.lines, events := t'.events) && t.lines <= t'.lines && t.events <= t'.events
  }

  /** Where one station's lines go: behind the lines of its queued latest ticket, or on a new queued ticket of that station. */
  ghost predicate PutAt(tickets: seq<Ticket>, tickets': seq<Ticket>, station: Option<Id>, l: Line, i: nat, now: nat) {
    && i < |tickets'| && tickets'[i].station == station
    && (if i < |tickets| then TakesAddOn(tickets, station, i) && Holds(tickets'[i], |tickets[i].lines|, l)
        else tickets'[i].status == Queued && tickets'[i].firedAt == now && (forall j: nat :: !TakesAddOn(tickets, station, j)) && Holds(tickets'[i], 0, l))
  }

  /** The tickets after some stations were fired: old ones grow or stay, new ones belong to those stations. */
  ghost predicate FiredAt(tickets: seq<Ticket>, tickets': seq<Ticket>, keys: seq<Option<Id>>) {
    && |tickets| <= |tickets'|
    && (forall j :: 0 <= j < |tickets| ==> Grown(tickets[j], tickets'[j]) && (tickets[j].station !in keys ==> tickets'[j] == tickets[j]))
    && (forall j :: |tickets| <= j < |tickets'| ==> tickets'[j].station in keys)
    && (forall j, k :: |tickets| <= j < k < |tickets'| ==> tickets'[j].station != tickets'[k].station)
  }

  lemma {:induction false} NewLinesHold(group: seq<Line>, batch: nat, l: Line, t: Ticket, n: nat)
    requires l in group && n <= |t.lines| && t.lines[n..] == NewTicketLines(group, batch)
    ensures Holds(t, n, l)
  {
    var g :| 0 <= g < |group| && group[g] == l;
    NewTicketLinesAt(group, batch, g);
    assert t.lines[n + g] == t.lines[n..][g];
  }

  lemma {:induction false} UniqueLatest(tickets: seq<Ticket>, station: Option<Id>, i: nat, j: nat)
    requires IsLatest(tickets, station, i) && IsLatest(tickets, station, j)
    ensures i == j
  {
  }

  /** One station: its lines are put where they belong and the other tickets stay. */
  lemma {:induction false} FireGroupPuts(tickets: seq<Ticket>, station: Option<Id>, group: seq<Line>, now: nat) returns (i: nat)
    ensures var tickets' := FireGroup(tickets, station, group, now);
            && FiredAt(tickets, tickets', [station])
            && forall l :: l in group ==> PutAt(tickets, tickets', station, l, i, now)
  {
    var tickets' := FireGroup(tickets, station, group, now);
    LatestIs(tickets, station);
    var latest := Latest(tickets, station);
    if latest.Some? && tickets[latest.value].status == Queued {
      i := latest.value;
      var t := tickets[i];
      assert tickets'[i].lines[|t.lines|..] == NewTicketLines(group, MaxBatch(t.lines) + 1);
      forall l | l in group
        ensures PutAt(tickets, tickets', station, l, i, now)
      {
        NewLinesHold(group, MaxBatch(t.lines) + 1, l, tickets'[i], |t.lines|);
      }
    } else {
      i := |tickets|;
      assert tickets'[i].lines[0..] == NewTicketLines(group, 0);
      forall j: nat
        ensures !TakesAddOn(tickets, station, j)
      {
        if TakesAddOn(tickets, station, j) {
          UniqueLatest(tickets, station, latest.value, j);
        }
      }
      forall l | l in group
        ensures PutAt(tickets, tickets', station, l, i, now)
      {
        NewLinesHold(group, 0, l, tickets'[i], 0);
      }
    }
  }

  /** Firing another station later leaves what was put in place. */
  lemma {:induction false} PutStays(tickets: seq<Ticket>, mid: seq<Ticket>, tickets': seq<Ticket>, station: Option<Id>, key: Option<Id>, l: Line, i: nat, now: nat)
    requires PutAt(tickets, mid, station, l, i, now) && FiredAt(mid, tickets', [key]) && key != station
    ensures PutAt(tickets, tickets', station, l, i, now)
  {
    assert tickets'[i] == mid[i];
  }

  lemma {:induction false} TakesAddOnElsewhere(tickets: seq<Ticket>, mid: seq<Ticket>, keys: seq<Option<Id>>, key: Option<Id>, j: nat)
    requires FiredAt(tickets, mid, keys) && key !in keys
    ensures TakesAddOn(mid, key, j) <==> TakesAddOn(tickets, key, j)
  {
    LatestElsewhere(tickets, mid, key);
    LatestIs(tickets, key);
    LatestIs(mid, key);
    if TakesAddOn(mid, key, j) {
      UniqueLatest(mid, key, j, Latest(mid, key).value);
    }
    if TakesAddOn(tickets, key, j) {
      UniqueLatest(tickets, key, j, Latest(tickets, key).value);
    }
  }

  /** What was put onto the tickets so far is put onto the original ones. */
  lemma {:induction false} PutFromMid(tickets: seq<Ticket>, mid: seq<Ticket>, tickets': seq<Ticket>, keys: seq<Option<Id>>, key: Option<Id>, l: Line, i: nat, now: nat)
    requires FiredAt(tickets, mid, keys) && key !in keys && PutAt(mid, tickets', key, l, i, now)
    ensures PutAt(tickets, tickets', key, l, i, now)
  {
    forall j: nat
      ensures TakesAddOn(mid, key, j) <==> TakesAddOn(tickets, key, j)
    {
      TakesAddOnElsewhere(tickets, mid, keys, key, j);
    }
  }

  lemma {:induction false} FiredAtStep(tickets: seq<Ticket>, mid: seq<Ticket>, tickets': seq<Ticket>, keys: seq<Option<Id>>, key: Option<Id>)
    requires FiredAt(tickets, mid, keys) && FiredAt(mid, tickets', [key]) && key !in keys
    ensures FiredAt(tickets, tickets', keys + [key])
  {
    forall j | 0 <= j < |tickets|
      ensures Grown(tickets[j], tickets'[j]) && (tickets[j].station !in keys + [key] ==> tickets'[j] == tickets[j])
    {
      assert Grown(mid[j], tickets'[j]) && Grown(tickets[j], mid[j]);
    }
  }

  /** A line of an already fired station, or of the one fired now, is in its place. */
  ghost predicate Placed(tickets: seq<Ticket>, tickets': seq<Ticket>, station: Option<Id>, l: Line, now: nat) {
    exists i: nat :: PutAt(tickets, tickets', station, l, i, now)
  }

  lemma {:induction false} FireGroupsPut(tickets: seq<Ticket>, unfired: seq<Line>, route: Line -> Option<Id>, keys: seq<Option<Id>>, now: nat)
    requires DistinctKeys(keys)
    ensures FiredAt(tickets, FireGroups(tickets, unfired, route, keys, now), keys)
    ensures forall l :: l in unfired && route(l) in keys ==> Placed(tickets, FireGroups(tickets, unfired, route, keys, now), route(l), l, now)
  {
    if |keys| > 0 {
      var front, key := keys[..|keys| - 1], keys[|keys| - 1];
      assert keys == front + [key] && key !in front;
      FireGroupsPut(tickets, unfired, route, front, now);
      var mid, tickets' := FireGroups(tickets, unfired, route, front, now), FireGroups(tickets, unfired, route, keys, now);
      var group := Filter(unfired, RoutedTo(route, key));
      var at := FireGroupPuts(mid, key, group, now);
      FiredAtStep(tickets, mid, tickets', front, key);
      forall l | l in unfired && route(l) in keys
        ensures Placed(tickets, tickets', route(l), l, now)
      {
        if route(l) == key {
          FilterMember(unfired, RoutedTo(route, key), l);
          PutFromMid(tickets, mid, tickets', front, key, l, at, now);
        } else {
          var i: nat :| PutAt(tickets, mid, route(l), l, i, now);
          PutStays(tickets, mid, tickets', route(l), key, l, i, now);
        }
      }
    }
  }

  /**
   * A send puts every billed item line the kitchen lacked on a ticket of its own routed station: behind the lines of the
   * station's latest ticket when that is still queued, on a new queued ticket exactly when it is not; old tickets only grow and
   * no station gets two new ones.
   */
  lemma {:induction false} SendPutsEveryLine(lines: seq<Line>, tickets: seq<Ticket>, stations: seq<Station>, outlet: Id, now: nat, l: Line)
    requires l in lines && !l.voided && l.kind.Item? && Count(tickets, l.id) == 0
    ensures var tickets' := FireOnSend(lines, tickets, RouteOf(stations, outlet), now);
            && Placed(tickets, tickets', RouteStation(stations, outlet, l.kind.station), l, now)
            && |tickets| <= |tickets'|
            && (forall j :: 0 <= j < |tickets| ==> Grown(tickets[j], tickets'[j]))
            && (forall j, k :: |tickets| <= j < k < |tickets'| ==> tickets'[j].station != tickets'[k].station)
  {
    var unfired, route := Unfired(lines, tickets), RouteOf(stations, outlet);
    KeysCover(unfired, route);
    FilterMember(lines, NeedsFiring(tickets), l);
    FireGroupsPut(tickets, unfired, route, Keys(unfired, route), now);
  }
}
