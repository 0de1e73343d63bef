/** The server as a state machine: each event is one transaction of the route, the ack applier,
    a resolver or the report worker. An update is two events, because the risk check commits its
    reservation before the ledger insert. */
module Server {
  import opened Common
  import opened Ledger

  /** An update whose risk check has committed and whose ledger row is not inserted yet. */
  datatype Attempt = Attempt(client: ClientId, qty: int, price: real)

  /** `told` holds, for each command, the broker number of the first `ok` answer its owner's agent had handed
      on to the route. */
  datatype State = State(db: Db, attempts: map<nat, Attempt>, told: map<CmdId, Option<Ordno>>)

  datatype Event =
    | PlaceDecided(o: Order, id: CmdId, expires: int, crashed: bool)
    | CancelDecided(id: CmdId, k: ClientId, expires: int)
    | UpdateChecked(a: nat, k: ClientId, qty: int, price: real)
    | UpdateInserted(a: nat, id: CmdId, expires: int)
    | AckArrives(id: CmdId, user: UserId, ack: Ack)
    | RouteTimesOut(id: CmdId)
    | RouteNeverSends(id: CmdId)
    | RouteWritesBack(id: CmdId)
    | QuantityQueried(id: CmdId, realQty: Option<int>)
    | CancelReported(id: CmdId)
    | StatusReported(k: ClientId, status: Status)

  predicate Known(db: Db, k: ClientId) { FindClient(db.orders, k) < |db.orders| }

  function OrderOf(db: Db, k: ClientId): Order
    requires Known(db, k)
  {
    db.orders[FindClient(db.orders, k)]
  }

  /** An `ok` ack that goes on to the route: its owner's, first or repeated, whatever its row says. */
  predicate HandsOver(db: Db, id: CmdId, user: UserId, ack: Ack) {
    id in db.commands && db.commands[id].user == user && ack.ok && !Clashes(db, id, user, ack)
  }

  function Told(s: State, id: CmdId, user: UserId, ack: Ack): map<CmdId, Option<Ordno>> {
    if HandsOver(s.db, id, user, ack) && id !in s.told then s.told[id := ack.ordno] else s.told
  }

  predicate Enabled(s: State, e: Event) {
    match e
    case PlaceDecided(o, id, _, _) =>
      id !in s.db.commands && o.status == Pending && o.ordno == None && o.qty > 0 && !Known(s.db, o.client)
    case CancelDecided(id, k, _) => id !in s.db.commands && Known(s.db, k) && OrderOf(s.db, k).ordno.Some?
    case UpdateChecked(a, _, _, _) => a !in s.attempts
    case UpdateInserted(a, id, _) => a in s.attempts && id !in s.db.commands
    case AckArrives(_, _, _) => true
    case RouteTimesOut(id) => id in s.db.commands && s.db.commands[id].kind != Cancel
    case RouteNeverSends(id) => id in s.db.commands && s.db.commands[id].kind != Cancel
    case RouteWritesBack(id) => id in s.db.commands && id in s.told
    case QuantityQueried(id, _) =>
      id in s.db.commands && s.db.commands[id].kind == Update && s.db.commands[id].outcome == Some(OutUnknown)
    case CancelReported(id) => id in s.db.commands && s.db.commands[id].kind == Cancel
    case StatusReported(k, _) => Known(s.db, k) && OrderOf(s.db, k).ordno.Some?
  }

  function Apply(s: State, e: Event, limit: int): State
    requires Enabled(s, e)
  {
    match e
    case PlaceDecided(o, id, expires, crashed) =>
      var db := CheckPlace(s.db, o, limit);
      s.(db := if crashed || !Known(db, o.client) then db else InsertPlain(db, id, Place, o.client, expires))
    case CancelDecided(id, k, expires) => s.(db := InsertPlain(s.db, id, Cancel, k, expires))
    case UpdateChecked(a, k, qty, price) =>
      var (db, ok) := CheckUpdate(s.db, k, qty, price, limit);
      s.(db := db, attempts := if ok then s.attempts[a := Attempt(k, qty, price)] else s.attempts)
    case UpdateInserted(a, id, expires) =>
      var t := s.attempts[a];
      s.(db := InsertUpdate(s.db, id, t.client, t.qty, t.price, expires).0, attempts := s.attempts - {a})
    case AckArrives(id, user, ack) => s.(db := ApplyAck(s.db, id, user, ack).0, told := Told(s, id, user, ack))
    case RouteTimesOut(id) => s.(db := TimeoutObserved(s.db, id).0)
    case RouteNeverSends(id) => s.(db := NeverDispatched(s.db, id))
    case RouteWritesBack(id) => s.(db := RouteTail(s.db, id, s.told[id]))
    case QuantityQueried(id, realQty) => s.(db := ResolveUpdate(s.db, id, realQty).0)
    case CancelReported(id) => s.(db := ResolveCancel(s.db, id).0)
    case StatusReported(k, status) =>
      s.(db := s.db.(orders := s.db.orders[FindClient(s.db.orders, k) := MarkStatus(OrderOf(s.db, k), status)]))
  }

  const Start := State(Db(map[], [], []), map[], map[])

  ghost predicate Linked(states: seq<State>, events: seq<Event>, limit: int, i: nat) {
    i < |events| && i + 1 < |states| && Enabled(states[i], events[i]) && states[i + 1] == Apply(states[i], events[i], limit)
  }

  /** A run: consecutive states linked by enabled events. */
  ghost predicate Run(states: seq<State>, events: seq<Event>, limit: int) {
    && |states| == |events| + 1
    && states[0] == Start
    && forall i :: 0 <= i < |events| ==> Linked(states, events, limit, i)
  }
}
