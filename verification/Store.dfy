/** The tenant's tables as one object: each transaction reads an order's rows, runs, and commits or changes nothing. */
module Store {
  import opened Prelude
  import opened Tax
  import opened Kitchen
  import opened Tabs
  import opened Ledger
  import opened Theorems
  import opened Transactions

  /** The moment a transaction runs: the time since the last one, and the settings in force. */
  datatype Moment = Moment(elapsed: nat, reg: Registration, simulator: bool, stations: seq<Station>)

  function At(action: Action, m: Moment): Event {
    Event(action, m.elapsed, m.reg, m.simulator, m.stations)
  }

  class Tables {
    const country: Country
    var tabs: map<Id, Tab>
    var counters: map<Id, nat>
    var clock: nat

    ghost function Contents(): Db
      reads this
    {
      Db(country, tabs, counters, clock)
    }

    /** Every transaction this object ran, refused ones included. */
    ghost var history: seq<Event>

    /** The rows are what the history of transactions leaves, so every theorem about reachable states holds of them. */
    ghost predicate Valid()
      reads this
    {
      Contents() == Run(Start(country), history)
    }

    constructor (country: Country)
      ensures Valid() && history == [] && Contents() == Start(country)
    {
      this.country := country;
      tabs, counters, clock, history := map[], map[], 0, [];
    }

    /** Opens an empty order under a fresh id; an id in use changes nothing but the time. */
    method Open(id: Id, outlet: Id, m: Moment)
      requires Valid()
      modifies this
      ensures Valid() && history == old(history) + [At(OpenOrder(id, outlet), m)]
      ensures Contents() == Step(old(Contents()), At(OpenOrder(id, outlet), m))
    {
      RunSnoc(Start(country), history, At(OpenOrder(id, outlet), m));
      history := history + [At(OpenOrder(id, outlet), m)];
      clock := clock + m.elapsed;
      if id !in tabs {
        tabs := tabs[id := NewTab(country, outlet, clock)];
      }
    }

    /** Writes the placed order's rows under a fresh id. */
    method InsertPlaced(id: Id, outlet: Id, items: seq<Placement>, m: Moment) returns (r: Result<()>)
      modifies this`tabs, this`clock
      ensures Contents() == Step(old(Contents()), At(PlaceOrder(id, outlet, items), m))
      ensures r.Ok? <==> |items| > 0 && id !in old(tabs)
    {
      var env := EnvAt(clock, At(PlaceOrder(id, outlet, items), m));
      clock := env.now;
      if |items| == 0 {
        return Err(EmptyCart);
      }
      if id in tabs {
        return Err(UniqueViolation);
      }
      var tab := PlaceCart(country, outlet, env, items);
      tabs := tabs[id := tab];
      r := Ok(());
    }

    /** Places a guest cart as an order that is sent at once; an empty cart is refused. */
    method PlaceGuestOrder(id: Id, outlet: Id, items: seq<Placement>, m: Moment) returns (r: Result<()>)
      requires Valid()
      modifies this
      ensures Valid() && history == old(history) + [At(PlaceOrder(id, outlet, items), m)]
      ensures Contents() == Step(old(Contents()), At(PlaceOrder(id, outlet, items), m))
      ensures r.Ok? <==> |items| > 0 && id !in old(tabs)
    {
      RunSnoc(Start(country), history, At(PlaceOrder(id, outlet, items), m));
      r := InsertPlaced(id, outlet, items, m);
      history := history + [At(PlaceOrder(id, outlet, items), m)];
    }

    /** Commits a transaction's result: the order's rows and the outlet's counter together, or nothing. */
    method Commit(id: Id, done: Result<Tab>, number: nat)
      requires id in tabs && number == NextNumber(Contents(), id)
      modifies this`tabs, this`counters
      ensures Contents() == Write(old(Contents()), id, done)
      ensures done.Err? ==> tabs == old(tabs) && counters == old(counters)
    {
      if done.Ok? {
        if IsFinal(done.value) && !IsFinal(tabs[id]) {
          counters := counters[tabs[id].outlet := number];
        }
        tabs := tabs[id := done.value];
      }
    }

    /** Reads the order, runs the transaction on it and commits. */
    method Transact(id: Id, op: Op, m: Moment) returns (r: Result<()>)
      modifies this`tabs, this`counters, this`clock
      ensures Contents() == Step(old(Contents()), At(OnOrder(id, op), m))
      ensures r.Err? ==> tabs == old(tabs) && counters == old(counters)
      ensures r.Ok? ==> id in old(tabs)
    {
      var env := EnvAt(clock, At(OnOrder(id, op), m));
      clock := env.now;
      if id !in tabs {
        return Err(NotFound);
      }
      var number := LastNumber(counters, tabs[id].outlet) + 1;
      var done := Perform(tabs[id], op, env, number);
      Commit(id, done, number);
      r := if done.Ok? then Ok(()) else Err(done.error);
    }

    /** Runs one transaction on an order; a refused one changes nothing but the time. */
    method Execute(id: Id, op: Op, m: Moment) returns (r: Result<()>)
      requires Valid()
      modifies this
      ensures Valid() && history == old(history) + [At(OnOrder(id, op), m)]
      ensures Contents() == Step(old(Contents()), At(OnOrder(id, op), m))
      ensures r.Err? ==> tabs == old(tabs) && counters == old(counters)
      ensures r.Ok? ==> id in old(tabs)
    {
      RunSnoc(Start(country), history, At(OnOrder(id, op), m));
      r := Transact(id, op, m);
      history := history + [At(OnOrder(id, op), m)];
    }

    /** The work of a transaction on the rows it read. */
    static method Perform(tab: Tab, op: Op, env: Env, number: nat) returns (r: Result<Tab>)
      ensures r == Apply(tab, op, env, number)
    {
      match op
      case OpAdd(item) =>
        if tab.state == Closed {
          return Err(Conflict);
        }
        var lines, next := InsertLines(tab.lines, tab.next, item, None);
        r := Ok(tab.(lines := lines, next := next));
      case OpUpdate(line, quantity, modifiers) => r := Update(tab, line, quantity, modifiers);
      case OpRemove(line) => r := RemoveLine(tab, line);
      case OpVoid(line, approved) => r := VoidLine(tab, line, approved);
      case OpSend => r := SendToKitchen(tab, env);
      case OpDiscard => r := Discard(tab);
      case OpCreateBill => r := CreateOrGetBill(tab, env);
      case OpReadBill => r := ReadOpenBill(tab, env);
      case OpGuestCreate(sessionActive) => r := CreateGuestBill(tab, env, sessionActive);
      case OpGuestRead => r := ReadGuestBill(tab, env);
      case OpFinalize(request) => r := FinalizeBill(tab, env, request, number);
      case OpPayShare(guest, success, sessionActive) => r := PayGuestShare(tab, env, guest, success, sessionActive, number);
      case OpPayAll(kiosk, success, sessionActive) => r := PayWholeBill(tab, env, kiosk, success, sessionActive, number);
      case OpRefund(targets, approved) => r := RefundFinalBill(tab, targets, approved);
      case OpRaiseIntent(amount, terminal) => r := RaisePaymentIntent(tab, env, amount, terminal);
      case OpIntent(intent, intentAction) => r := IntentStep(tab, env, intent, intentAction);
      case OpTicket(ticket, ticketAction) => r := TicketStep(tab, env, ticket, ticketAction);
    }
  }

  /** Whatever transactions were run on the tables, their rows are a reachable state. */
  lemma {:induction false} TablesAreReachable(tables: Tables)
    requires tables.Valid()
    ensures Reachable(tables.Contents()) && DbOk(tables.Contents())
  {
    assert tables.Contents() == Run(Start(tables.country), tables.history);
    ReachableOk(tables.Contents());
  }
}
