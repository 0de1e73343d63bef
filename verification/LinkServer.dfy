/** The server's own state machine is an instance of the environment the agent protocol assumes. */
module LinkServer {
  import opened Common
  import opened Ledger
  import S = Server
  import L = AgentLink

  predicate Moves(commands: map<CmdId, Command>, next: map<CmdId, Command>) {
    next.Keys == commands.Keys && forall id :: id in commands ==> L.RowMoves(commands[id], next[id])
  }

  lemma ResolveMoves(commands: map<CmdId, Command>, id: CmdId, outcome: Outcome, via: Via)
    requires via != ByAck
    ensures Moves(commands, CasResolve(commands, id, outcome, via, None).0)
  {
  }

  lemma TimeoutMoves(db: Db, id: CmdId)
    ensures Moves(db.commands, TimeoutObserved(db, id).0.commands)
  {
  }

  lemma NeverSentMoves(db: Db, id: CmdId)
    ensures Moves(db.commands, NeverDispatched(db, id).commands)
  {
  }

  lemma TailMoves(db: Db, id: CmdId, ordno: Option<Ordno>)
    ensures RouteTail(db, id, ordno).commands == db.commands
  {
  }

  lemma QueryMoves(db: Db, id: CmdId, realQty: Option<int>)
    ensures Moves(db.commands, ResolveUpdate(db, id, realQty).0.commands)
  {
    ResolveMoves(db.commands, id, OutOk, ByQuery);
    ResolveMoves(db.commands, id, OutError, ByQuery);
    ResolveMoves(db.commands, id, OutUnknown, ByReport);
  }

  lemma ReportMoves(db: Db, id: CmdId)
    ensures Moves(db.commands, ResolveCancel(db, id).0.commands)
  {
  }

  /** New rows come from decisions, made while the agent is logged in and for its account. */
  predicate DecidedHere(w: L.World, s: S.State, e: S.Event) {
    w.loggedIn &&
    match e
    case PlaceDecided(o, _, _, _) => o.user == w.user ==> o.account == w.channel
    case CancelDecided(_, k, _) => S.Known(s.db, k) && S.OrderOf(s.db, k).user == w.user ==> S.OrderOf(s.db, k).account == w.channel
    case UpdateInserted(a, _, _) =>
      a in s.attempts && S.Known(s.db, s.attempts[a].client) && S.OrderOf(s.db, s.attempts[a].client).user == w.user ==>
        S.OrderOf(s.db, s.attempts[a].client).account == w.channel
    case _ => true
  }

  predicate Decides(e: S.Event) { e.PlaceDecided? || e.CancelDecided? || e.UpdateInserted? }

  lemma MovesIsEnvWrite(w: L.World, next: Db)
    requires Moves(w.db.commands, next.commands)
    ensures L.EnvWrite(w, next)
  {
  }

  lemma SettlingIsEnvWrite(w: L.World, s: S.State, e: S.Event, limit: int)
    requires w.db == s.db && S.Enabled(s, e) && !e.AckArrives? && !Decides(e)
    ensures L.EnvWrite(w, S.Apply(s, e, limit).db)
  {
    match e {
    case RouteTimesOut(id) => TimeoutMoves(s.db, id);
    case RouteNeverSends(id) => NeverSentMoves(s.db, id);
    case RouteWritesBack(id) => TailMoves(s.db, id, s.told[id]);
    case QuantityQueried(id, realQty) => QueryMoves(s.db, id, realQty);
    case CancelReported(id) => ReportMoves(s.db, id);
    case UpdateChecked(_, k, qty, price) => assert CheckUpdate(s.db, k, qty, price, limit).0.commands == s.db.commands;
    case StatusReported(_, _) =>
    }
    MovesIsEnvWrite(w, S.Apply(s, e, limit).db);
  }

  /** A decision adds at most one row, fresh and for the order it names. */
  lemma RowAdded(w: L.World, next: Db, id: CmdId, c: Command)
    requires id !in w.db.commands && (next.commands == w.db.commands || next.commands == w.db.commands[id := c])
    requires c.user == w.user ==> L.NewRowOk(w, c)
    ensures L.EnvWrite(w, next)
  {
  }

  lemma DecisionIsEnvWrite(w: L.World, s: S.State, e: S.Event, limit: int)
    requires w.db == s.db && S.Enabled(s, e) && Decides(e) && DecidedHere(w, s, e)
    ensures L.EnvWrite(w, S.Apply(s, e, limit).db)
  {
    var next := S.Apply(s, e, limit).db;
    match e
    case PlaceDecided(o, id, expires, _) =>
      PlacedRow(s.db, o, limit);
      RowAdded(w, next, id, NewCommand(Place, o, Some(PlaceRes(o.client)), o.qty, Some(o.price), expires));
    case CancelDecided(id, k, expires) =>
      var o := S.OrderOf(s.db, k);
      RowAdded(w, next, id, NewCommand(Cancel, o, None, o.qty, Some(o.price), expires));
    case UpdateInserted(a, id, expires) => InsertedRow(w, s, a, id, expires, limit);
  }

  lemma InsertedRow(w: L.World, s: S.State, a: nat, id: CmdId, expires: int, limit: int)
    requires var e := S.UpdateInserted(a, id, expires); w.db == s.db && S.Enabled(s, e) && DecidedHere(w, s, e)
    ensures L.EnvWrite(w, S.Apply(s, S.UpdateInserted(a, id, expires), limit).db)
  {
    var t := s.attempts[a];
    var next := InsertUpdate(s.db, id, t.client, t.qty, t.price, expires).0;
    if S.Known(s.db, t.client) {
      var c := NewCommand(Update, S.OrderOf(s.db, t.client), Some(UpdateRes(t.client, t.qty, t.price)), t.qty, Some(t.price), expires);
      RowAdded(w, next, id, c);
    } else {
      MovesIsEnvWrite(w, next);
    }
  }

  /** Every server event but an arriving ack is an environment write of the agent protocol. */
  lemma ServerEventIsEnvWrite(w: L.World, s: S.State, e: S.Event, limit: int)
    requires w.db == s.db && S.Enabled(s, e) && !e.AckArrives? && (Decides(e) ==> DecidedHere(w, s, e))
    ensures L.EnvWrite(w, S.Apply(s, e, limit).db)
  {
    if Decides(e) { DecisionIsEnvWrite(w, s, e, limit); } else { SettlingIsEnvWrite(w, s, e, limit); }
  }

  lemma PlacedRow(db: Db, o: Order, limit: int)
    ensures var n := CheckPlace(db, o, limit);
      n.commands == db.commands && (!S.Known(db, o.client) && S.Known(n, o.client) ==> S.OrderOf(n, o.client) == o)
  {
  }

  /** An arriving ack of this user is what the protocol's server does with it. */
  lemma AckEventIsApply(w: L.World, s: S.State, id: CmdId, ack: Ack, limit: int)
    requires w.db == s.db && !Clashes(w.db, id, w.user, ack)
    ensures L.Apply(w, id, ack, None).db == S.Apply(s, S.AckArrives(id, w.user, ack), limit).db
  {
  }
}
