/** What single flight rests on, in every run of the server: who may have which broker number, and that
    an order has at most one placement and at most one open update. No quota is involved, and no verdict:
    routes may write back what the server has already given up. */
module SingleFlight {
  import opened Common
  import opened Ledger
  import opened Server
  import opened Tables
  import opened LedgerSteps

  /** The order of a command is there, in the command's scope and under its number. A placement's order has
      no number but the one the route was told; and nothing is told before the command's first ack. */
  ghost predicate Scoped(s: State, id: CmdId)
    requires id in s.db.commands
  {
    var c := s.db.commands[id];
    var o := LookupOrder(s.db.orders, c.client);
    && o.Some? && o.value.account == c.account && o.value.mode == c.mode
    && (c.kind != Place ==> c.ordno.Some? && o.value.ordno == c.ordno)
    && (c.kind == Place && o.value.ordno.Some? ==> id in s.told && s.told[id] == o.value.ordno)
    && (id in s.told ==> c.acked)
  }

  ghost predicate Numbered(db: Db, k: ClientId) {
    LookupOrder(db.orders, k).Some? && LookupOrder(db.orders, k).value.ordno.Some?
  }

  ghost predicate Shape(s: State) {
    && UniqueClients(s.db.orders) && OrdnosUnique(s.db.orders) && Flights(s.db.commands)
    && (forall id :: id in s.db.commands ==> Scoped(s, id)) && s.told.Keys <= s.db.commands.Keys
    && (forall a :: a in s.attempts ==> Numbered(s.db, s.attempts[a].client))
  }

  // ---- Steps that give out no number and take no command ----

  ghost predicate SameNumbers(orders: seq<Order>, next: seq<Order>) {
    |orders| == |next| && forall i :: 0 <= i < |orders| ==>
      next[i].client == orders[i].client && next[i].account == orders[i].account && next[i].mode == orders[i].mode
      && next[i].ordno == orders[i].ordno
  }

  predicate RowsMove(commands: map<CmdId, Command>, next: map<CmdId, Command>) {
    next.Keys == commands.Keys && KeepsRequests(commands, next)
  }

  /** What was told stays told, and what is told was acknowledged. */
  predicate Hears(s: State, n: State) {
    && (forall id :: id in s.told ==> id in n.told && n.told[id] == s.told[id])
    && (forall id :: id in n.told ==> id in n.db.commands && n.db.commands[id].acked)
  }

  lemma NumbersLookup(orders: seq<Order>, next: seq<Order>, k: ClientId)
    requires SameNumbers(orders, next)
    ensures FindClient(next, k) == FindClient(orders, k)
  {
  }

  lemma QuietKeeps(s: State, n: State)
    requires Shape(s) && SameNumbers(s.db.orders, n.db.orders) && RowsMove(s.db.commands, n.db.commands)
    requires n.attempts == s.attempts && Hears(s, n)
    ensures Shape(n)
  {
    forall k ensures FindClient(n.db.orders, k) == FindClient(s.db.orders, k) { NumbersLookup(s.db.orders, n.db.orders, k); }
    forall id | id in n.db.commands ensures Scoped(n, id) {
      assert Scoped(s, id);
      assert SameRequest(s.db.commands[id], n.db.commands[id]);
    }
    QuietFlights(s.db.commands, n.db.commands);
    QuietOrdnos(s.db.orders, n.db.orders);
  }

  lemma SameTold(s: State, n: State)
    requires Shape(s) && RowsMove(s.db.commands, n.db.commands) && n.told == s.told
    ensures Hears(s, n)
  {
    forall id | id in n.told ensures id in n.db.commands && n.db.commands[id].acked {
      assert Scoped(s, id) && SameRequest(s.db.commands[id], n.db.commands[id]);
    }
  }

  lemma QuietFlights(commands: map<CmdId, Command>, next: map<CmdId, Command>)
    requires Flights(commands) && RowsMove(commands, next)
    ensures Flights(next)
  {
    forall a, b | a in next && b in next && a != b && next[a].client == next[b].client
      ensures !(next[a].kind == Place && next[b].kind == Place)
              && !(next[a].kind == Update && next[b].kind == Update && !next[a].resolved && !next[b].resolved)
    {
      assert SameRequest(commands[a], next[a]) && SameRequest(commands[b], next[b]);
    }
  }

  lemma QuietOrdnos(orders: seq<Order>, next: seq<Order>)
    requires UniqueClients(orders) && OrdnosUnique(orders) && SameNumbers(orders, next)
    ensures UniqueClients(next) && OrdnosUnique(next)
  {
  }

  // ---- Numbers ----

  /** A placement's order takes the number the route was told, by the ack or by the write-back. */
  ghost predicate Numbers(s: State, n: State, id: CmdId) {
    && id in s.db.commands && s.db.commands[id].kind == Place && Known(s.db, s.db.commands[id].client)
    && RowsMove(s.db.commands, n.db.commands) && n.attempts == s.attempts && Hears(s, n) && id in n.told
    && var i := FindClient(s.db.orders, s.db.commands[id].client);
       n.db.orders == s.db.orders[i := PlaceAckOrder(s.db.orders[i], n.told[id])]
  }

  /** Only a placement may concern an order without a number, and there is one placement for each order. */
  lemma NumberedScope(s: State, n: State, id: CmdId, cid: CmdId)
    requires UniqueClients(s.db.orders) && Flights(s.db.commands) && Numbers(s, n, id) && cid in s.db.commands
    requires Scoped(s, id) && Scoped(s, cid)
    ensures Scoped(n, cid)
  {
    var i := FindClient(s.db.orders, s.db.commands[id].client);
    UpdatedOrder(s.db.orders, i, PlaceAckOrder(s.db.orders[i], n.told[id]));
    assert SameRequest(s.db.commands[cid], n.db.commands[cid]);
  }

  lemma NumberedKeeps(s: State, n: State, id: CmdId)
    requires Shape(s) && Numbers(s, n, id) && !OrdnoTaken(s.db.orders, s.db.commands[id].client, n.told[id])
    ensures Shape(n)
  {
    var c := s.db.commands[id];
    assert Scoped(s, id);
    var i := FindClient(s.db.orders, c.client);
    var o := PlaceAckOrder(s.db.orders[i], n.told[id]);
    UpdatedOrder(s.db.orders, i, o);
    OrdnosStayUnique(s.db.orders, i, o);
    QuietFlights(s.db.commands, n.db.commands);
    forall cid | cid in n.db.commands ensures Scoped(n, cid) {
      assert Scoped(s, cid);
      NumberedScope(s, n, id, cid);
    }
    forall a | a in n.attempts ensures Numbered(n.db, n.attempts[a].client) { assert Numbered(s.db, s.attempts[a].client); }
  }

  // ---- Acks ----

  /** The ack that gives an order its number. */
  predicate Accepts(db: Db, id: CmdId, user: UserId, ack: Ack) {
    id in db.commands && db.commands[id].user == user && db.commands[id].kind == Place
    && !db.commands[id].acked && !db.commands[id].resolved && ack.ok && !OrdnoTaken(db.orders, db.commands[id].client, ack.ordno)
  }

  lemma OtherAckNumbers(db: Db, id: CmdId, user: UserId, ack: Ack)
    requires !Accepts(db, id, user, ack)
    ensures SameNumbers(db.orders, ApplyAck(db, id, user, ack).0.orders)
  {
  }

  lemma AcceptedShape(db: Db, id: CmdId, user: UserId, ack: Ack)
    requires Accepts(db, id, user, ack) && Known(db, db.commands[id].client)
    ensures var i := FindClient(db.orders, db.commands[id].client);
      ApplyAck(db, id, user, ack).0.orders == db.orders[i := PlaceAckOrder(db.orders[i], ack.ordno)]
  {
  }

  /** An answer handed on finds its row acknowledged. */
  lemma HandedOnIsAcked(db: Db, id: CmdId, user: UserId, ack: Ack)
    requires HandsOver(db, id, user, ack)
    ensures id in ApplyAck(db, id, user, ack).0.commands && ApplyAck(db, id, user, ack).0.commands[id].acked
  {
    var c := db.commands[id];
    if !c.acked && !c.resolved {
      var acked := db.(commands := db.commands[id := c.(acked := true)]);
      EffectsLedger(acked.(commands := CasResolve(acked.commands, id, OutOk, ByAck, ack.ordno).0), c, ack);
    }
  }

  lemma AckHears(s: State, id: CmdId, user: UserId, ack: Ack)
    requires Shape(s)
    ensures Hears(s, Apply(s, AckArrives(id, user, ack), 0))
  {
    var n := Apply(s, AckArrives(id, user, ack), 0);
    AckLedger(s.db, id, user, ack);
    if HandsOver(s.db, id, user, ack) { HandedOnIsAcked(s.db, id, user, ack); }
    forall cid | cid in n.told ensures cid in n.db.commands && n.db.commands[cid].acked {
      if cid in s.told { assert Scoped(s, cid) && SameRequest(s.db.commands[cid], n.db.commands[cid]); }
    }
  }

  lemma AckKeepsShape(s: State, id: CmdId, user: UserId, ack: Ack, limit: int)
    requires Shape(s)
    ensures Shape(Apply(s, AckArrives(id, user, ack), limit))
  {
    var n := Apply(s, AckArrives(id, user, ack), limit);
    AckLedger(s.db, id, user, ack);
    AckHears(s, id, user, ack);
    if Accepts(s.db, id, user, ack) {
      assert Scoped(s, id);
      AcceptedShape(s.db, id, user, ack);
      NumberedKeeps(s, n, id);
    } else {
      OtherAckNumbers(s.db, id, user, ack);
      QuietKeeps(s, n);
    }
  }

  // ---- Decisions ----

  /** A fresh row for an order in its scope: a placement of an order without a number, or any other command
      under the order's number. */
  lemma CommandAdded(s: State, id: CmdId, c: Command, attempts: map<nat, Attempt>)
    requires Shape(s) && id !in s.db.commands && Flights(s.db.commands[id := c])
    requires var o := LookupOrder(s.db.orders, c.client);
      && o.Some? && o.value.account == c.account && o.value.mode == c.mode
      && if c.kind == Place then o.value.ordno == None else c.ordno.Some? && o.value.ordno == c.ordno
    requires forall a :: a in attempts ==> a in s.attempts && attempts[a] == s.attempts[a]
    ensures Shape(s.(db := s.db.(commands := s.db.commands[id := c]), attempts := attempts))
  {
    var n := s.(db := s.db.(commands := s.db.commands[id := c]), attempts := attempts);
    forall cid | cid in n.db.commands ensures Scoped(n, cid) {
      if cid != id { assert Scoped(s, cid); }
    }
  }

  lemma OrderAdded(s: State, o: Order, quotas: seq<Quota>)
    requires Shape(s) && !Known(s.db, o.client) && o.ordno == None
    ensures Shape(s.(db := s.db.(orders := s.db.orders + [o], quotas := quotas)))
  {
    AppendedOrder(s.db.orders, o);
    var n := s.(db := s.db.(orders := s.db.orders + [o], quotas := quotas));
    forall id | id in n.db.commands ensures Scoped(n, id) { assert Scoped(s, id); }
  }

  lemma PlaceKeeps(s: State, o: Order, id: CmdId, expires: int, crashed: bool, limit: int)
    requires Shape(s) && Enabled(s, PlaceDecided(o, id, expires, crashed))
    ensures Shape(Apply(s, PlaceDecided(o, id, expires, crashed), limit))
  {
    var db := CheckPlace(s.db, o, limit);
    if db != s.db {
      OrderAdded(s, o, db.quotas);
      AppendedOrder(s.db.orders, o);
      var mid := s.(db := db);
      var c := NewCommand(Place, o, Some(PlaceRes(o.client)), o.qty, Some(o.price), expires);
      forall cid | cid in s.db.commands ensures s.db.commands[cid].client != o.client { assert Scoped(s, cid); }
      CommandAdded(mid, id, c, s.attempts);
    }
  }

  lemma CancelKeeps(s: State, id: CmdId, k: ClientId, expires: int, limit: int)
    requires Shape(s) && Enabled(s, CancelDecided(id, k, expires))
    ensures Shape(Apply(s, CancelDecided(id, k, expires), limit))
  {
    var o := OrderOf(s.db, k);
    CommandAdded(s, id, NewCommand(Cancel, o, None, o.qty, Some(o.price), expires), s.attempts);
  }

  lemma CheckKeeps(s: State, a: nat, k: ClientId, qty: int, price: real, limit: int)
    requires Shape(s) && Enabled(s, UpdateChecked(a, k, qty, price))
    ensures Shape(Apply(s, UpdateChecked(a, k, qty, price), limit))
  {
    var n := Apply(s, UpdateChecked(a, k, qty, price), limit);
    forall id | id in n.db.commands ensures Scoped(n, id) { assert Scoped(s, id); }
  }

  lemma InsertKeepsShape(s: State, a: nat, id: CmdId, expires: int, limit: int)
    requires Shape(s) && Enabled(s, UpdateInserted(a, id, expires))
    ensures Shape(Apply(s, UpdateInserted(a, id, expires), limit))
  {
    var t := s.attempts[a];
    assert Numbered(s.db, t.client);
    if !UpdateUnresolved(s.db.commands, t.client) {
      var c := NewCommand(Update, OrderOf(s.db, t.client), Some(UpdateRes(t.client, t.qty, t.price)), t.qty, Some(t.price), expires);
      CommandAdded(s, id, c, s.attempts - {a});
    } else {
      var n := Apply(s, UpdateInserted(a, id, expires), limit);
      forall cid | cid in n.db.commands ensures Scoped(n, cid) { assert Scoped(s, cid); }
    }
  }

  // ---- The route, the resolvers and the reports ----

  lemma RouteNumbers(db: Db, id: CmdId)
    ensures SameNumbers(db.orders, TimeoutObserved(db, id).0.orders)
    ensures SameNumbers(db.orders, NeverDispatched(db, id).orders)
  {
  }

  lemma QueryNumbers(db: Db, id: CmdId, realQty: Option<int>)
    ensures SameNumbers(db.orders, ResolveUpdate(db, id, realQty).0.orders)
    ensures ResolveCancel(db, id).0.orders == db.orders
  {
  }

  lemma TailNumbers(db: Db, id: CmdId, ordno: Option<Ordno>)
    requires id in db.commands && db.commands[id].kind != Place
    ensures SameNumbers(db.orders, RouteTail(db, id, ordno).orders)
  {
  }

  /** A placement written back: refused by the unique number, or numbered as told. */
  lemma WriteBackKeepsShape(s: State, id: CmdId, limit: int)
    requires Shape(s) && Enabled(s, RouteWritesBack(id))
    ensures Shape(Apply(s, RouteWritesBack(id), limit))
  {
    var c := s.db.commands[id];
    var n := Apply(s, RouteWritesBack(id), limit);
    assert Scoped(s, id);
    RouteLedger(s.db, id, s.told[id]);
    SameTold(s, n);
    if c.kind != Place {
      TailNumbers(s.db, id, s.told[id]);
      QuietKeeps(s, n);
    } else if !OrdnoTaken(s.db.orders, c.client, s.told[id]) {
      NumberedKeeps(s, n, id);
    }
  }

  lemma TimeoutRows(db: Db, id: CmdId)
    ensures RowsMove(db.commands, TimeoutObserved(db, id).0.commands)
  {
  }

  lemma NeverSentRows(db: Db, id: CmdId)
    ensures RowsMove(db.commands, NeverDispatched(db, id).commands)
  {
    if id in db.commands {
      assert NeverDispatched(db, id).commands == db.commands
             || NeverDispatched(db, id).commands == CasResolve(db.commands, id, OutError, ByLocal, None).0;
    }
  }

  lemma QueryRows(db: Db, id: CmdId, realQty: Option<int>)
    ensures RowsMove(db.commands, ResolveUpdate(db, id, realQty).0.commands)
    ensures RowsMove(db.commands, ResolveCancel(db, id).0.commands)
  {
    QueryLedger(db, id, realQty);
  }

  /** Every event keeps the shape, whatever reservations it finds. */
  lemma ShapeStep(s: State, e: Event, limit: int)
    requires Shape(s) && Enabled(s, e)
    ensures Shape(Apply(s, e, limit))
  {
    match e
    case PlaceDecided(o, id, expires, crashed) => PlaceKeeps(s, o, id, expires, crashed, limit);
    case CancelDecided(id, k, expires) => CancelKeeps(s, id, k, expires, limit);
    case UpdateChecked(a, k, qty, price) => CheckKeeps(s, a, k, qty, price, limit);
    case UpdateInserted(a, id, expires) => InsertKeepsShape(s, a, id, expires, limit);
    case _ => SettlingStep(s, e, limit);
  }

  lemma SettlingStep(s: State, e: Event, limit: int)
    requires Shape(s) && Enabled(s, e) && (CommandEvent?(e) || e.StatusReported?)
    ensures Shape(Apply(s, e, limit))
  {
    match e
    case AckArrives(id, user, ack) => AckKeepsShape(s, id, user, ack, limit);
    case RouteWritesBack(id) => WriteBackKeepsShape(s, id, limit);
    case _ =>
      QuietNumbers(s, e, limit);
      SameTold(s, Apply(s, e, limit));
      QuietKeeps(s, Apply(s, e, limit));
  }

  lemma QuietNumbers(s: State, e: Event, limit: int)
    requires Enabled(s, e) && (CommandEvent?(e) || e.StatusReported?) && !e.AckArrives? && !e.RouteWritesBack?
    ensures var n := Apply(s, e, limit);
      SameNumbers(s.db.orders, n.db.orders) && RowsMove(s.db.commands, n.db.commands) && n.attempts == s.attempts && n.told == s.told
  {
    match e
    case RouteTimesOut(id) => RouteNumbers(s.db, id); TimeoutRows(s.db, id);
    case RouteNeverSends(id) => RouteNumbers(s.db, id); NeverSentRows(s.db, id);
    case QuantityQueried(id, realQty) => QueryNumbers(s.db, id, realQty); QueryRows(s.db, id, realQty);
    case CancelReported(id) => QueryNumbers(s.db, id, None); QueryRows(s.db, id, None);
    case StatusReported(_, _) =>
  }

  /** Main result: in every run, at every point. */
  lemma {:induction false} ShapeOverRun(states: seq<State>, events: seq<Event>, limit: int, n: nat)
    requires Run(states, events, limit) && n < |states|
    ensures Shape(states[n])
  {
    if n > 0 {
      ShapeOverRun(states, events, limit, n - 1);
      assert Linked(states, events, limit, n - 1);
      ShapeStep(states[n - 1], events[n - 1], limit);
    }
  }
}
