/** What the events of the server do to the command ledger. */
module LedgerSteps {
  import opened Common
  import opened Ledger
  import opened Server

  predicate CommandEvent?(e: Event) {
    e.AckArrives? || e.RouteTimesOut? || e.RouteNeverSends? || e.RouteWritesBack? || e.QuantityQueried? || e.CancelReported?
  }

  function EventCommand(e: Event): CmdId
    requires CommandEvent?(e)
  {
    e.id
  }

  /** A ledger row after an event: the request itself is frozen, and a resolved row keeps its verdict. */
  predicate SameRequest(c: Command, n: Command) {
    && n == c.(acked := n.acked, timedOut := n.timedOut, outcome := n.outcome, via := n.via,
               resolved := n.resolved, resultOrdno := n.resultOrdno)
    && (c.acked ==> n.acked)
    && (c.resolved ==> n.resolved && n.outcome == c.outcome && n.via == c.via && n.resultOrdno == c.resultOrdno)
  }

  predicate KeepsRequests(commands: map<CmdId, Command>, next: map<CmdId, Command>) {
    forall id :: id in commands ==> id in next && SameRequest(commands[id], next[id])
  }

  lemma ResolveLedger(commands: map<CmdId, Command>, id: CmdId, outcome: Outcome, via: Via, resultOrdno: Option<Ordno>)
    ensures KeepsRequests(commands, CasResolve(commands, id, outcome, via, resultOrdno).0)
  {
  }

  lemma EffectsLedger(db: Db, c: Command, ack: Ack)
    ensures OkEffects(db, c, ack).commands == db.commands
    ensures RejectEffects(db, c).commands == db.commands
    ensures TimeoutEffects(db, c).commands == db.commands
  {
  }

  /** An ack writes no row but its own. */
  lemma AckLedger(db: Db, id: CmdId, user: UserId, ack: Ack)
    ensures KeepsRequests(db.commands, ApplyAck(db, id, user, ack).0.commands)
    ensures OnlyRow(db.commands, ApplyAck(db, id, user, ack).0.commands, id)
  {
    var next := ApplyAck(db, id, user, ack).0.commands;
    if id in db.commands && db.commands[id].user == user && !db.commands[id].acked {
      AckRow(db, id, ack);
      assert next == db.commands || next == db.commands[id := next[id]];
    }
  }

  predicate OnlyRow(commands: map<CmdId, Command>, next: map<CmdId, Command>, id: CmdId) {
    next.Keys == commands.Keys && forall cid :: cid in commands && cid != id ==> next[cid] == commands[cid]
  }

  lemma AckRow(db: Db, id: CmdId, ack: Ack)
    requires id in db.commands && !db.commands[id].acked
    ensures var c := db.commands[id]; var next := ApplyAck(db, id, c.user, ack).0.commands;
      next == db.commands || (id in next && next == db.commands[id := next[id]] && SameRequest(c, next[id]))
  {
    var c := db.commands[id];
    var acked := db.(commands := db.commands[id := c.(acked := true)]);
    EffectsLedger(acked.(commands := CasResolve(acked.commands, id, OutOk, ByAck, ack.ordno).0), c, ack);
    EffectsLedger(acked.(commands := CasResolve(acked.commands, id, OutError, ByAck, None).0), c, ack);
    EffectsLedger(acked.(commands := acked.commands[id := acked.commands[id].(outcome := Some(OutUnknown))]), c, ack);
    assert CasResolve(acked.commands, id, OutOk, ByAck, ack.ordno).0.Keys == db.commands.Keys;
  }

  lemma RouteLedger(db: Db, id: CmdId, ordno: Option<Ordno>)
    ensures KeepsRequests(db.commands, TimeoutObserved(db, id).0.commands)
    ensures KeepsRequests(db.commands, NeverDispatched(db, id).commands)
    ensures RouteTail(db, id, ordno).commands == db.commands
  {
    if id in db.commands {
      ResolveLedger(db.commands, id, OutError, ByLocal, None);
    }
  }

  lemma QueryLedger(db: Db, id: CmdId, realQty: Option<int>)
    ensures KeepsRequests(db.commands, ResolveUpdate(db, id, realQty).0.commands)
    ensures KeepsRequests(db.commands, ResolveCancel(db, id).0.commands)
  {
  }

  /** No event rewrites a request, and a resolved row keeps its verdict for ever. */
  lemma LedgerMoves(s: State, e: Event, limit: int)
    requires Enabled(s, e)
    ensures KeepsRequests(s.db.commands, Apply(s, e, limit).db.commands)
  {
    if CommandEvent?(e) { CommandMoves(s, e, limit); }
  }

  lemma CommandMoves(s: State, e: Event, limit: int)
    requires Enabled(s, e) && CommandEvent?(e)
    ensures KeepsRequests(s.db.commands, Apply(s, e, limit).db.commands)
  {
    match e
    case AckArrives(id, user, ack) => AckLedger(s.db, id, user, ack);
    case RouteTimesOut(id) => RouteLedger(s.db, id, None);
    case RouteNeverSends(id) => RouteLedger(s.db, id, None);
    case RouteWritesBack(id) => RouteLedger(s.db, id, s.told[id]);
    case QuantityQueried(id, realQty) => QueryLedger(s.db, id, realQty);
    case CancelReported(id) => QueryLedger(s.db, id, None);
  }
}
