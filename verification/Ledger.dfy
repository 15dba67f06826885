/** The whole store: every order of a tenant, the outlets' bill-number counters, and runs of transactions. */
module Ledger {
  import opened Prelude
  import opened Tax
  import opened Kitchen
  import opened Bills
  import opened Payments
  import opened Settlement
  import opened Tabs
  import opened TabInvariant

  datatype Db = Db(country: Country, tabs: map<Id, Tab>, counters: map<Id, nat>, clock: nat)

  datatype Action =
    | OpenOrder(id: Id, outlet: Id)
    | PlaceOrder(id: Id, outlet: Id, items: seq<Placement>)
    | OnOrder(id: Id, op: Op)

  /** One transaction: some time passes, then it runs under the settings of that moment. */
  datatype Event = Event(action: Action, elapsed: nat, reg: Registration, simulator: bool, stations: seq<Station>)

  function EnvAt(clock: nat, e: Event): Env {
    Env(clock + e.elapsed, e.reg, e.simulator, e.stations)
  }

  function LastNumber(counters: map<Id, nat>, outlet: Id): nat {
    if outlet in counters then counters[outlet] else 0
  }

  predicate IsFinal(tab: Tab) {
    tab.bill.Some? && tab.bill.value.status == Finalized
  }

  /** The counter moves only in the transaction that finalises a bill. */
  function Reserve(counters: map<Id, nat>, tab: Tab, tab': Tab): map<Id, nat> {
    if IsFinal(tab') && !IsFinal(tab) then counters[tab.outlet := LastNumber(counters, tab.outlet) + 1] else counters
  }

  /** A transaction commits or leaves every row as it was. */
  function Write(db: Db, id: Id, r: Result<Tab>): Db
    requires id in db.tabs
  {
    match r
    case Err(_) => db
    case Ok(tab') => db.(tabs := db.tabs[id := tab'], counters := Reserve(db.counters, db.tabs[id], tab'))
  }

  /** A new order takes an id nothing else has. */
  function Insert(db: Db, id: Id, tab: Tab): Db {
    if id in db.tabs then db else db.(tabs := db.tabs[id := tab])
  }

  function Step(db: Db, e: Event): Db {
    var env := EnvAt(db.clock, e);
    var db' := db.(clock := env.now);
    match e.action
    case OpenOrder(id, outlet) => Insert(db', id, NewTab(db.country, outlet, env.now))
    case PlaceOrder(id, outlet, items) => if |items| == 0 then db' else Insert(db', id, Place(db.country, outlet, env, items))
    case OnOrder(id, op) => if id !in db.tabs then db' else Write(db', id, Apply(db.tabs[id], op, env, NextNumber(db, id)))
  }

  /** The number the next finalised bill of this order's outlet will get. */
  function NextNumber(db: Db, id: Id): nat
    requires id in db.tabs
  {
    LastNumber(db.counters, db.tabs[id].outlet) + 1
  }

  function Run(db: Db, events: seq<Event>): Db {
    if |events| == 0 then db else Step(Run(db, events[..|events| - 1]), events[|events| - 1])
  }

  lemma {:induction false} RunSnoc(db: Db, events: seq<Event>, e: Event)
    ensures Run(db, events + [e]) == Step(Run(db, events), e)
  {
    assert (events + [e])[..|events|] == events;
  }

  lemma {:induction false} RunAppends(db: Db, first: seq<Event>, later: seq<Event>)
    ensures Run(db, first + later) == Run(Run(db, first), later)
  {
    if |later| == 0 {
      assert first + later == first;
    } else {
      var front, e := later[..|later| - 1], later[|later| - 1];
      RunAppends(db, first, front);
      assert (first + later)[..|first + later| - 1] == first + front;
    }
  }

  function Start(country: Country): Db {
    Db(country, map[], map[], 0)
  }

  // ---- The invariant -----------------------------------------------------------------------------

  function NumberOf(tab: Tab): nat {
    if tab.bill.Some? && tab.bill.value.number.Some? then tab.bill.value.number.value else 0
  }

  ghost predicate HasNumber(tabs: map<Id, Tab>, outlet: Id, n: nat) {
    exists id :: id in tabs && IsFinal(tabs[id]) && tabs[id].outlet == outlet && NumberOf(tabs[id]) == n
  }

  /** The finalised bills of an outlet carry exactly the numbers 1 to its counter, each once. */
  ghost predicate NumbersOk(tabs: map<Id, Tab>, counters: map<Id, nat>) {
    && (forall id :: id in tabs && IsFinal(tabs[id]) ==> 1 <= NumberOf(tabs[id]) <= LastNumber(counters, tabs[id].outlet))
    && (forall a, b :: a in tabs && b in tabs && a != b && IsFinal(tabs[a]) && IsFinal(tabs[b]) && tabs[a].outlet == tabs[b].outlet ==> NumberOf(tabs[a]) != NumberOf(tabs[b]))
    && (forall outlet, n :: 1 <= n <= LastNumber(counters, outlet) ==> HasNumber(tabs, outlet, n))
  }

  ghost predicate DbOk(db: Db) {
    && (forall id :: id in db.tabs ==> TabOk(db.tabs[id], db.clock) && db.tabs[id].country == db.country)
    && NumbersOk(db.tabs, db.counters)
  }

  /** A finalised bill keeps every amount and tender; only credit notes are added and late captures flagged. */
  ghost predicate SameSettlement(b: Bill, b': Bill) {
    && b' == b.(notes := b'.notes, intents := b'.intents)
    && b.notes <= b'.notes
  }

  /** What no transaction changes, and what finalising fixes for good. */
  ghost predicate Keeps(tab: Tab, tab': Tab, number: nat) {
    && tab'.outlet == tab.outlet && tab'.country == tab.country && tab'.createdAt == tab.createdAt
    && (IsFinal(tab) ==> IsFinal(tab') && tab'.lines == tab.lines && tab'.state == Closed && SameSettlement(tab.bill.value, tab'.bill.value))
    && (!IsFinal(tab) && IsFinal(tab') ==> tab'.bill.value.number == Some(number))
  }

  lemma {:induction false} KeepsOrder(tab: Tab, op: Op, env: Env, number: nat)
    requires op.OpAdd? || op.OpUpdate? || op.OpRemove? || op.OpVoid? || op.OpSend? || op.OpDiscard? || op.OpTicket?
    requires IsFinal(tab) ==> tab.state == Closed
    requires Apply(tab, op, env, number).Ok?
    ensures Keeps(tab, Apply(tab, op, env, number).value, number)
  {
    var tab' := Apply(tab, op, env, number).value;
    assert tab'.bill == tab.bill || !IsFinal(tab');
  }

  lemma {:induction false} KeepsReads(tab: Tab, op: Op, env: Env, number: nat)
    requires op.OpCreateBill? || op.OpReadBill? || op.OpGuestCreate? || op.OpGuestRead?
    requires IsFinal(tab) ==> tab.state == Closed
    requires Apply(tab, op, env, number).Ok?
    ensures Keeps(tab, Apply(tab, op, env, number).value, number)
  {
  }

  lemma {:induction false} KeepsFinalize(tab: Tab, env: Env, request: FinalizeRequest, number: nat)
    requires Finalize(tab, env, request, number).Ok?
    ensures Keeps(tab, Finalize(tab, env, request, number).value, number)
  {
  }

  lemma {:induction false} KeepsShare(tab: Tab, env: Env, guest: Id, success: bool, sessionActive: bool, number: nat)
    requires PayShare(tab, env, guest, success, sessionActive, number).Ok?
    ensures Keeps(tab, PayShare(tab, env, guest, success, sessionActive, number).value, number)
  {
  }

  lemma {:induction false} KeepsWhole(tab: Tab, env: Env, kiosk: bool, success: bool, sessionActive: bool, number: nat)
    requires PayAll(tab, env, kiosk, success, sessionActive, number).Ok?
    ensures Keeps(tab, PayAll(tab, env, kiosk, success, sessionActive, number).value, number)
  {
  }

  lemma {:induction false} KeepsMoney(tab: Tab, op: Op, env: Env, number: nat)
    requires op.OpRefund? || op.OpRaiseIntent?
    requires IsFinal(tab) ==> tab.state == Closed
    requires Apply(tab, op, env, number).Ok?
    ensures Keeps(tab, Apply(tab, op, env, number).value, number)
  {
    if op.OpRaiseIntent? {
      var b := Refreshed(tab, env, tab.bill.value);
      assert b.status == Open;
      var active := FirstActive(b.intents);
      if active.Some? {
        assert ExpireIfDue(b, active.value, env.now).value.status == Open;
      }
    }
  }

  lemma {:induction false} KeepsIntent(tab: Tab, env: Env, i: nat, action: IntentAction, number: nat)
    requires tab.bill.Some? ==> BillIntentsOk(tab.bill.value)
    requires IsFinal(tab) ==> tab.state == Closed
    requires IntentStep(tab, env, i, action).Ok?
    ensures Keeps(tab, IntentStep(tab, env, i, action).value, number)
  {
    if action == ConfirmIntent {
      ConfirmMoney(tab.bill.value, i, env.simulator);
    }
  }

  lemma {:induction false} ApplyKeeps(tab: Tab, op: Op, env: Env, number: nat, clock: nat)
    requires TabOk(tab, clock) && Apply(tab, op, env, number).Ok?
    ensures Keeps(tab, Apply(tab, op, env, number).value, number)
  {
    match op
    case OpFinalize(request) => KeepsFinalize(tab, env, request, number);
    case OpPayShare(guest, success, sessionActive) => KeepsShare(tab, env, guest, success, sessionActive, number);
    case OpPayAll(kiosk, success, sessionActive) => KeepsWhole(tab, env, kiosk, success, sessionActive, number);
    case OpRefund(_, _) => KeepsMoney(tab, op, env, number);
    case OpRaiseIntent(_, _) => KeepsMoney(tab, op, env, number);
    case OpIntent(i, action) => KeepsIntent(tab, env, i, action, number);
    case OpCreateBill => KeepsReads(tab, op, env, number);
    case OpReadBill => KeepsReads(tab, op, env, number);
    case OpGuestCreate(_) => KeepsReads(tab, op, env, number);
    case OpGuestRead => KeepsReads(tab, op, env, number);
    case _ => KeepsOrder(tab, op, env, number);
  }

  lemma {:induction false} NumbersExtended(tabs: map<Id, Tab>, counters: map<Id, nat>, id: Id, tab: Tab)
    requires NumbersOk(tabs, counters) && id !in tabs && !IsFinal(tab)
    ensures NumbersOk(tabs[id := tab], counters)
  {
    var tabs' := tabs[id := tab];
    forall outlet, n | 1 <= n <= LastNumber(counters, outlet)
      ensures HasNumber(tabs', outlet, n)
    {
      assert HasNumber(tabs, outlet, n);
      var x :| x in tabs && IsFinal(tabs[x]) && tabs[x].outlet == outlet && NumberOf(tabs[x]) == n;
      assert tabs'[x] == tabs[x];
    }
  }

  /** A step on one order keeps the numbering gapless: either nothing is numbered, or the next number is. */
  lemma {:induction false} NumbersKept(tabs: map<Id, Tab>, counters: map<Id, nat>, id: Id, tab': Tab)
    requires NumbersOk(tabs, counters) && id in tabs && tab'.outlet == tabs[id].outlet
    requires IsFinal(tabs[id]) ==> IsFinal(tab') && NumberOf(tab') == NumberOf(tabs[id])
    requires !IsFinal(tabs[id]) && IsFinal(tab') ==> NumberOf(tab') == LastNumber(counters, tab'.outlet) + 1
    ensures NumbersOk(tabs[id := tab'], Reserve(counters, tabs[id], tab'))
  {
    var tabs', counters' := tabs[id := tab'], Reserve(counters, tabs[id], tab');
    forall outlet, n | 1 <= n <= LastNumber(counters', outlet)
      ensures HasNumber(tabs', outlet, n)
    {
      if n <= LastNumber(counters, outlet) {
        assert HasNumber(tabs, outlet, n);
        var x :| x in tabs && IsFinal(tabs[x]) && tabs[x].outlet == outlet && NumberOf(tabs[x]) == n;
        assert IsFinal(tabs'[x]) && tabs'[x].outlet == outlet && NumberOf(tabs'[x]) == n;
      } else {
        assert IsFinal(tabs'[id]) && tabs'[id].outlet == outlet && NumberOf(tabs'[id]) == n;
      }
    }
  }

  lemma {:induction false} LaterOk(db: Db, now: nat)
    requires DbOk(db) && db.clock <= now
    ensures DbOk(db.(clock := now))
  {
    forall id | id in db.tabs
      ensures TabOk(db.tabs[id], now)
    {
      TabLater(db.tabs[id], db.clock, now);
    }
  }

  lemma {:induction false} InsertOk(db: Db, id: Id, tab: Tab)
    requires DbOk(db) && TabOk(tab, db.clock) && tab.country == db.country && tab.bill == None
    ensures DbOk(Insert(db, id, tab))
  {
    if id !in db.tabs {
      NumbersExtended(db.tabs, db.counters, id, tab);
    }
  }

  lemma {:induction false} WriteOk(db: Db, id: Id, r: Result<Tab>)
    requires DbOk(db) && id in db.tabs
    requires r.Ok? ==> TabOk(r.value, db.clock) && Keeps(db.tabs[id], r.value, NextNumber(db, id))
    ensures DbOk(Write(db, id, r))
  {
    if r.Ok? {
      NumbersKept(db.tabs, db.counters, id, r.value);
    }
  }

  lemma {:induction false} ApplyFits(db: Db, id: Id, op: Op, env: Env)
    requires DbOk(db) && id in db.tabs && db.clock <= env.now
    ensures var r := Apply(db.tabs[id], op, env, NextNumber(db, id));
            r.Ok? ==> TabOk(r.value, env.now) && Keeps(db.tabs[id], r.value, NextNumber(db, id))
  {
    if Apply(db.tabs[id], op, env, NextNumber(db, id)).Ok? {
      ApplyOk(db.tabs[id], op, env, NextNumber(db, id), db.clock);
      ApplyKeeps(db.tabs[id], op, env, NextNumber(db, id), db.clock);
    }
  }

  lemma {:induction false} NewOrderStepOk(db: Db, e: Event)
    requires DbOk(db) && !e.action.OnOrder?
    ensures DbOk(Step(db, e))
  {
    var env := EnvAt(db.clock, e);
    var db' := db.(clock := env.now);
    LaterOk(db, env.now);
    if e.action.OpenOrder? {
      NewTabOk(db.country, e.action.outlet, env.now);
      InsertOk(db', e.action.id, NewTab(db.country, e.action.outlet, env.now));
    } else {
      PlaceOk(db.country, e.action.outlet, env, e.action.items);
      PlaceFrame(db.country, e.action.outlet, env, e.action.items);
      InsertOk(db', e.action.id, Place(db.country, e.action.outlet, env, e.action.items));
    }
  }

  lemma {:induction false} OrderStepOk(db: Db, id: Id, now: nat, r: Result<Tab>)
    requires DbOk(db) && id in db.tabs && db.clock <= now
    requires r.Ok? ==> TabOk(r.value, now) && Keeps(db.tabs[id], r.value, NextNumber(db, id))
    ensures DbOk(Write(db.(clock := now), id, r))
  {
    LaterOk(db, now);
    WriteOk(db.(clock := now), id, r);
  }

  /** Every transaction, committed or refused, keeps the whole store consistent. */
  lemma {:induction false} StepOk(db: Db, e: Event)
    requires DbOk(db)
    ensures DbOk(Step(db, e))
  {
    if !e.action.OnOrder? {
      NewOrderStepOk(db, e);
    } else if e.action.id in db.tabs {
      var env := EnvAt(db.clock, e);
      ApplyFits(db, e.action.id, e.action.op, env);
      OrderStepOk(db, e.action.id, env.now, Apply(db.tabs[e.action.id], e.action.op, env, NextNumber(db, e.action.id)));
    } else {
      LaterOk(db, db.clock + e.elapsed);
    }
  }

  lemma {:induction false} PlaceItemsFrame(tab: Tab, items: seq<Placement>)
    ensures PlaceItems(tab, items) == tab.(lines := PlaceItems(tab, items).lines, next := PlaceItems(tab, items).next)
  {
    if |items| > 0 {
      PlaceItemsFrame(tab, items[..|items| - 1]);
    }
  }

  lemma {:induction false} PlaceFrame(country: Country, outlet: Id, env: Env, items: seq<Placement>)
    ensures Place(country, outlet, env, items).country == country
    ensures Place(country, outlet, env, items).outlet == outlet
  {
    PlaceItemsFrame(NewTab(country, outlet, env.now), items);
  }

  /** Every reachable state satisfies the invariant. */
  lemma {:induction false} RunOk(db: Db, events: seq<Event>)
    requires DbOk(db)
    ensures DbOk(Run(db, events))
  {
    if |events| > 0 {
      RunOk(db, events[..|events| - 1]);
      StepOk(Run(db, events[..|events| - 1]), events[|events| - 1]);
    }
  }

  lemma {:induction false} StartOk(country: Country)
    ensures DbOk(Start(country))
  {
  }
}
