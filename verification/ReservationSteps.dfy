/** Every event of the server keeps the exposure invariant. */
module ReservationSteps {
  import opened Common
  import opened Ledger
  import opened Server
  import opened Tables
  import opened LedgerSteps
  import opened SingleFlight
  import opened Reservations

  // ---- What an event does to the reservations ----

  lemma SettleForward(db: Db, id: ResId, state: QuotaState)
    requires UniqueRes(db.quotas) && Positive(db.quotas) && state != Reserved
    ensures QuotasForward(db, db.(quotas := Settle(db.quotas, id, state)))
    ensures !StillReserved(db.(quotas := Settle(db.quotas, id, state)), id)
  {
    var i := FindQuota(db.quotas, id);
    if i < |db.quotas| && db.quotas[i].state == Reserved { Settled(db, i, state); }
  }

  lemma ReserveForward(db: Db, id: ResId, user: UserId, mode: Mode, day: Day, qty: int, limit: int)
    requires UniqueRes(db.quotas) && Positive(db.quotas) && qty > 0
    ensures QuotasForward(db, db.(quotas := Reserve(db.quotas, id, user, mode, day, qty, limit).0))
  {
    var i := FindQuota(db.quotas, id);
    if i == |db.quotas| && Used(db.quotas, user, mode, day) + qty <= limit {
      Appended(db, Quota(id, user, mode, day, qty, Reserved));
    }
  }

  /** A table in which at most the command's own reservation was settled. */
  predicate SettledFor(quotas: seq<Quota>, next: seq<Quota>, c: Command) {
    next == quotas || next == SettleOpt(quotas, c.reservation, Confirmed) || next == SettleOpt(quotas, c.reservation, Released)
  }

  lemma AckQuotas(db: Db, id: CmdId, user: UserId, ack: Ack)
    requires id in db.commands
    ensures SettledFor(db.quotas, ApplyAck(db, id, user, ack).0.quotas, db.commands[id])
  {
  }

  lemma RouteQuotas(db: Db, id: CmdId, ordno: Option<Ordno>)
    requires id in db.commands
    ensures TimeoutObserved(db, id).0.quotas == db.quotas
    ensures SettledFor(db.quotas, NeverDispatched(db, id).quotas, db.commands[id])
    ensures SettledFor(db.quotas, RouteTail(db, id, ordno).quotas, db.commands[id])
  {
  }

  lemma QueryQuotas(db: Db, id: CmdId, realQty: Option<int>)
    requires id in db.commands
    ensures SettledFor(db.quotas, ResolveUpdate(db, id, realQty).0.quotas, db.commands[id])
    ensures ResolveCancel(db, id).0.quotas == db.quotas
  {
  }

  lemma SettledForForward(db: Db, quotas: seq<Quota>, c: Command)
    requires UniqueRes(db.quotas) && Positive(db.quotas) && SettledFor(db.quotas, quotas, c)
    ensures QuotasForward(db, db.(quotas := quotas))
  {
    if c.reservation.Some? {
      SettleForward(db, c.reservation.value, Confirmed);
      SettleForward(db, c.reservation.value, Released);
    }
  }

  /** The reservations a command event leaves behind. */
  lemma CommandEventQuotas(s: State, e: Event, limit: int)
    requires Enabled(s, e) && CommandEvent?(e) && EventCommand(e) in s.db.commands
    ensures SettledFor(s.db.quotas, Apply(s, e, limit).db.quotas, s.db.commands[EventCommand(e)])
  {
    match e
    case AckArrives(id, user, ack) => AckQuotas(s.db, id, user, ack);
    case RouteTimesOut(id) => RouteQuotas(s.db, id, None);
    case RouteNeverSends(id) => RouteQuotas(s.db, id, None);
    case RouteWritesBack(id) => RouteQuotas(s.db, id, s.told[id]);
    case QuantityQueried(id, realQty) => QueryQuotas(s.db, id, realQty);
    case CancelReported(id) => QueryQuotas(s.db, id, None);
  }

  lemma CheckQuotas(db: Db, o: Order, k: ClientId, qty: int, price: real, limit: int)
    requires UniqueRes(db.quotas) && Positive(db.quotas) && o.qty > 0
    ensures QuotasForward(db, CheckPlace(db, o, limit))
    ensures QuotasForward(db, CheckUpdate(db, k, qty, price, limit).0)
  {
    ReserveForward(db, PlaceRes(o.client), o.user, o.mode, o.day, o.qty, limit);
    if Known(db, k) && qty > OrderOf(db, k).qty {
      var p := OrderOf(db, k);
      ReserveForward(db, UpdateRes(k, qty, price), p.user, p.mode, p.day, qty - p.qty, limit);
    }
  }

  lemma QuotasMove(s: State, e: Event, limit: int)
    requires UniqueRes(s.db.quotas) && Positive(s.db.quotas) && Enabled(s, e)
    ensures QuotasForward(s.db, Apply(s, e, limit).db)
  {
    if CommandEvent?(e) {
      if EventCommand(e) in s.db.commands {
        CommandEventQuotas(s, e, limit);
        SettledForForward(s.db, Apply(s, e, limit).db.quotas, s.db.commands[EventCommand(e)]);
      }
    } else {
      match e
      case PlaceDecided(o, _, _, _) => CheckQuotas(s.db, o, 0, 0, 0.0, limit);
      case UpdateChecked(_, k, qty, price) =>
        CheckQuotas(s.db, Order(0, 0, 0, Sim, 0, 1, 0.0, None, Pending), k, qty, price, limit);
      case UpdateInserted(a, _, _) =>
        SettleForward(s.db, UpdateRes(s.attempts[a].client, s.attempts[a].qty, s.attempts[a].price), Released);
      case _ =>
    }
  }

  // ---- Acks ----

  /** The row of an unresolved command, its order, and where the effects will find it. */
  lemma CommandOrder(s: State, id: CmdId, limit: int)
    requires Inv(s, limit) && id in s.db.commands
    ensures var c := s.db.commands[id]; var i := FindCommandOrder(s.db, c);
      i < |s.db.orders| && i == FindClient(s.db.orders, c.client) && LookupOrder(s.db.orders, c.client) == Some(s.db.orders[i])
  {
  }

  function Noted(s: State, id: CmdId): State
    requires id in s.db.commands
  {
    s.(db := s.db.(commands := s.db.commands[id := s.db.commands[id].(acked := true)]))
  }

  function Resolved(s: State, id: CmdId, outcome: Outcome, via: Via, resultOrdno: Option<Ordno>): State {
    s.(db := s.db.(commands := CasResolve(s.db.commands, id, outcome, via, resultOrdno).0))
  }

  function ConfirmedState(s: State, id: CmdId): State
    requires id in s.db.commands
  {
    s.(db := s.db.(quotas := Settle(s.db.quotas, PlaceRes(s.db.commands[id].client), Confirmed)))
  }

  function NumberedState(s: State, id: CmdId, ordno: Option<Ordno>): State
    requires id in s.db.commands && Known(s.db, s.db.commands[id].client)
  {
    var i := FindClient(s.db.orders, s.db.commands[id].client);
    s.(db := s.db.(orders := s.db.orders[i := PlaceAckOrder(s.db.orders[i], ordno)]))
  }

  /** An accepted placement: confirm the reservation, resolve, then number the order. */
  lemma PlaceOkKeeps(s: State, id: CmdId, ordno: Option<Ordno>, limit: int)
    requires Inv(s, limit) && id in s.db.commands && Known(s.db, s.db.commands[id].client)
    requires var c := s.db.commands[id];
      c.kind == Place && !c.resolved && OrderOf(s.db, c.client).ordno == None && !OrdnoTaken(s.db.orders, c.client, ordno)
    ensures var t := Resolved(s, id, OutOk, ByAck, ordno);
      Inv(t.(db := PlaceAcked(t.db, s.db.commands[id].client, ordno, s.db.commands[id].reservation)), limit)
  {
    PlaceConfirmed(s, id, limit);
    ResolveKeeps(ConfirmedState(s, id), id, OutOk, ByAck, ordno, limit);
    PlaceNumbered(Resolved(ConfirmedState(s, id), id, OutOk, ByAck, ordno), id, ordno, limit);
    PlaceOkShape(s, id, ordno);
  }

  lemma PlaceOkShape(s: State, id: CmdId, ordno: Option<Ordno>)
    requires id in s.db.commands && !s.db.commands[id].resolved && Known(s.db, s.db.commands[id].client)
    requires s.db.commands[id].reservation == Some(PlaceRes(s.db.commands[id].client))
    ensures var t := Resolved(s, id, OutOk, ByAck, ordno);
      NumberedState(Resolved(ConfirmedState(s, id), id, OutOk, ByAck, ordno), id, ordno)
      == t.(db := PlaceAcked(t.db, s.db.commands[id].client, ordno, s.db.commands[id].reservation))
  {
  }

  /** Confirming a placement's reservation that was not given back. */
  lemma PlaceConfirmed(s: State, id: CmdId, limit: int)
    requires Inv(s, limit) && id in s.db.commands && s.db.commands[id].kind == Place
    requires !s.db.commands[id].resolved || NotGivenBack(s.db, PlaceRes(s.db.commands[id].client))
    ensures var res := PlaceRes(s.db.commands[id].client); var quotas := Settle(s.db.quotas, res, Confirmed);
      && Inv(s.(db := s.db.(quotas := quotas)), limit)
      && s.db.commands[id].reservation == Some(res) && Known(s.db, res.client)
      && LookupQuota(quotas, res).Some? && LookupQuota(quotas, res).value.state == Confirmed
  {
    var c := s.db.commands[id];
    assert CommandOk(s.db, c);
    ConfirmKeeps(s, PlaceRes(c.client), limit);
  }

  /** Numbering an order whose placement is answered and whose reservation is confirmed. */
  lemma PlaceNumbered(s: State, id: CmdId, ordno: Option<Ordno>, limit: int)
    requires Inv(s, limit) && id in s.db.commands && Known(s.db, s.db.commands[id].client)
    requires var c := s.db.commands[id];
      && c.kind == Place && (c.resolved || c.acked) && !OrdnoTaken(s.db.orders, c.client, ordno)
      && (OrderOf(s.db, c.client).ordno == None || OrderOf(s.db, c.client).ordno == ordno)
      && LookupQuota(s.db.quotas, PlaceRes(c.client)).Some?
      && LookupQuota(s.db.quotas, PlaceRes(c.client)).value.state == Confirmed
    ensures Inv(NumberedState(s, id, ordno), limit)
  {
    var i := FindClient(s.db.orders, s.db.commands[id].client);
    var o := s.db.orders[i];
    var n := PlaceAckOrder(o, ordno);
    assert OrderOk(s.db, o);
    assert OrderOk(s.db, n);
    OrderKeeps(s, i, n, limit);
  }

  function Marked(s: State, i: nat, status: Status): State
    requires i < |s.db.orders|
  {
    s.(db := s.db.(orders := s.db.orders[i := MarkStatus(s.db.orders[i], status)]))
  }

  function Rewritten(s: State, i: nat, c: Command): State
    requires i < |s.db.orders|
  {
    s.(db := s.db.(orders := s.db.orders[i := UpdateAckOrder(s.db.orders[i], c.price, c.qty)]))
  }

  function SettledState(s: State, id: Option<ResId>, state: QuotaState): State {
    s.(db := s.db.(quotas := SettleOpt(s.db.quotas, id, state)))
  }

  lemma CancelOkKeeps(s: State, id: CmdId, ordno: Option<Ordno>, limit: int)
    requires Inv(s, limit) && id in s.db.commands && s.db.commands[id].kind == Cancel
    ensures FindCommandOrder(s.db, s.db.commands[id]) < |s.db.orders|
    ensures Inv(Marked(Resolved(s, id, OutOk, ByAck, ordno), FindCommandOrder(s.db, s.db.commands[id]), Cancelled), limit)
  {
    CommandOrder(s, id, limit);
    assert CommandOk(s.db, s.db.commands[id]);
    ResolveKeeps(s, id, OutOk, ByAck, ordno, limit);
    MarkKeeps(Resolved(s, id, OutOk, ByAck, ordno), FindCommandOrder(s.db, s.db.commands[id]), Cancelled, limit);
  }

  /** A carried-out update: confirm the difference, rewrite the order, resolve. */
  lemma UpdateOkKeeps(s: State, id: CmdId, via: Via, ordno: Option<Ordno>, limit: int)
    requires Inv(s, limit) && id in s.db.commands && s.db.commands[id].kind == Update && !s.db.commands[id].resolved
    ensures var c := s.db.commands[id]; var i := FindCommandOrder(s.db, c);
      && i < |s.db.orders|
      && Inv(Resolved(Rewritten(SettledState(s, c.reservation, Confirmed), i, c), id, OutOk, via, ordno), limit)
  {
    var c := s.db.commands[id];
    var i := FindCommandOrder(s.db, c);
    CommandOrder(s, id, limit);
    UpdateConfirmed(s, id, limit);
    var s1 := SettledState(s, c.reservation, Confirmed);
    UpdateAckKeeps(s1, i, c.price, c.qty, limit);
    ResolveKeeps(Rewritten(s1, i, c), id, OutOk, via, ordno, limit);
  }

  lemma UpdateConfirmed(s: State, id: CmdId, limit: int)
    requires Inv(s, limit) && id in s.db.commands && s.db.commands[id].kind == Update && !s.db.commands[id].resolved
    ensures var c := s.db.commands[id]; var t := SettledState(s, c.reservation, Confirmed);
      && Inv(t, limit) && 0 < c.qty <= ConfirmedQty(t.db.quotas, c.client)
      && LookupOrder(s.db.orders, c.client).Some? && LookupOrder(s.db.orders, c.client).value.ordno.Some?
  {
    var c := s.db.commands[id];
    assert CommandOk(s.db, c);
    ConfirmKeeps(s, c.reservation.value, limit);
    assert CommandOk(SettledState(s, c.reservation, Confirmed).db, c);
  }

  lemma OkKeeps(s: State, id: CmdId, ack: Ack, limit: int)
    requires Inv(s, limit) && id in s.db.commands && !s.db.commands[id].resolved
    requires s.db.commands[id].kind == Place ==>
               Known(s.db, s.db.commands[id].client) && OrderOf(s.db, s.db.commands[id].client).ordno == None
               && !OrdnoTaken(s.db.orders, s.db.commands[id].client, ack.ordno)
    ensures var t := Resolved(s, id, OutOk, ByAck, ack.ordno);
      Inv(t.(db := OkEffects(t.db, s.db.commands[id], ack)), limit)
  {
    var c := s.db.commands[id];
    CommandOrder(s, id, limit);
    match c.kind
    case Place => PlaceOkKeeps(s, id, ack.ordno, limit);
    case Cancel => CancelOkKeeps(s, id, ack.ordno, limit);
    case Update => UpdateOkKeeps(s, id, ByAck, ack.ordno, limit);
  }

  /** A refused update: resolve first, then give the difference back. */
  lemma UpdateErrorKeeps(s: State, id: CmdId, via: Via, limit: int)
    requires Inv(s, limit) && id in s.db.commands && s.db.commands[id].kind == Update && !s.db.commands[id].resolved
    ensures Inv(SettledState(Resolved(s, id, OutError, via, None), s.db.commands[id].reservation, Released), limit)
  {
    var c := s.db.commands[id];
    assert CommandOk(s.db, c);
    ResolveKeeps(s, id, OutError, via, None, limit);
    var t := Resolved(s, id, OutError, via, None);
    forall cid | cid in t.db.commands && !t.db.commands[cid].resolved ensures t.db.commands[cid].reservation != c.reservation {
      assert CommandOk(s.db, s.db.commands[cid]);
    }
    ReleaseKeeps(t, c.reservation.value, limit);
  }

  lemma PlaceErrorKeeps(s: State, id: CmdId, via: Via, limit: int)
    requires Inv(s, limit) && id in s.db.commands && s.db.commands[id].kind == Place
    ensures var t := Resolved(s, id, OutError, via, None);
      Inv(t.(db := PlaceFailed(t.db, s.db.commands[id].client, s.db.commands[id].reservation, Failed)), limit)
  {
    var c := s.db.commands[id];
    assert CommandOk(s.db, c);
    ResolveKeeps(s, id, OutError, via, None, limit);
    var t := Resolved(s, id, OutError, via, None);
    forall cid | cid in t.db.commands && t.db.commands[cid].reservation == Some(PlaceRes(c.client)) ensures t.db.commands[cid].resolved {
      assert CommandOk(s.db, s.db.commands[cid]);
    }
    PlaceFailedKeeps(t, c.client, Failed, limit);
  }

  lemma RejectKeeps(s: State, id: CmdId, limit: int)
    requires Inv(s, limit) && id in s.db.commands && !s.db.commands[id].resolved
    ensures var t := Resolved(s, id, OutError, ByAck, None);
      Inv(t.(db := RejectEffects(t.db, s.db.commands[id])), limit)
  {
    match s.db.commands[id].kind
    case Place => PlaceErrorKeeps(s, id, ByAck, limit);
    case Cancel => ResolveKeeps(s, id, OutError, ByAck, None, limit);
    case Update => UpdateErrorKeeps(s, id, ByAck, limit);
  }

  /** Marking a placement's order unknown; other commands touch nothing. */
  lemma UnknownKeeps(s: State, c: Command, limit: int)
    requires Inv(s, limit)
    ensures Inv(s.(db := TimeoutEffects(s.db, c)), limit)
  {
    if c.kind == Place {
      PlaceFailedKeeps(s, c.client, Unknown, limit);
      assert PlaceFailed(s.db, c.client, None, Unknown) == PlaceFailed(s.db, c.client, Some(PlaceRes(c.client)), Unknown);
    }
  }

  function Unsure(s: State, id: CmdId): State
    requires id in s.db.commands
  {
    s.(db := s.db.(commands := s.db.commands[id := s.db.commands[id].(outcome := Some(OutUnknown))]))
  }

  lemma UnsureKeeps(s: State, id: CmdId, limit: int)
    requires Inv(s, limit) && id in s.db.commands && !s.db.commands[id].resolved
    ensures var t := Unsure(s, id);
      Inv(t.(db := TimeoutEffects(t.db, s.db.commands[id])), limit)
  {
    NotedKeeps(s, id, s.db.commands[id].(outcome := Some(OutUnknown)), limit);
    UnknownKeeps(Unsure(s, id), s.db.commands[id], limit);
  }

  /** What an applied ack amounts to, written as the steps above. */
  lemma AckShape(s: State, id: CmdId, ack: Ack)
    requires id in s.db.commands && !s.db.commands[id].acked && !s.db.commands[id].resolved
    requires ack.ok ==> !(s.db.commands[id].kind == Place && OrdnoTaken(s.db.orders, s.db.commands[id].client, ack.ordno))
    ensures var n := Noted(s, id); var c := n.db.commands[id];
      ApplyAck(s.db, id, s.db.commands[id].user, ack).0 ==
        if ack.ok then OkEffects(Resolved(n, id, OutOk, ByAck, ack.ordno).db, c, ack)
        else if ExplicitReject(ack) then RejectEffects(Resolved(n, id, OutError, ByAck, None).db, c)
        else TimeoutEffects(Unsure(n, id).db, c)
  {
  }

  lemma AckKeeps(s: State, id: CmdId, user: UserId, ack: Ack, limit: int)
    requires Inv(s, limit)
    ensures Inv(s.(db := ApplyAck(s.db, id, user, ack).0), limit)
  {
    if id in s.db.commands && s.db.commands[id].user == user && !s.db.commands[id].acked {
      var c := s.db.commands[id];
      assert CommandOk(s.db, c);
      NotedKeeps(s, id, c.(acked := true), limit);
      var n := Noted(s, id);
      if !c.resolved && !(ack.ok && c.kind == Place && OrdnoTaken(s.db.orders, c.client, ack.ordno)) {
        AckShape(s, id, ack);
        if ack.ok {
          OkKeeps(n, id, ack, limit);
        } else if ExplicitReject(ack) {
          RejectKeeps(n, id, limit);
        } else {
          UnsureKeeps(n, id, limit);
        }
      }
    }
  }

  // ---- The route, the resolvers and the reports ----

  /** A resolved update's own row is no longer reserved, or the update needs none. */
  ghost predicate SpentFor(db: Db, c: Command) {
    c.kind == Update && c.resolved && c.reservation.Some? ==>
      c.qty <= ConfirmedQty(db.quotas, c.client)
      || (LookupQuota(db.quotas, c.reservation.value).Some? && !StillReserved(db, c.reservation.value))
  }

  ghost predicate Spent(db: Db) { forall id :: id in db.commands ==> SpentFor(db, db.commands[id]) }

  lemma TimesOutKeeps(s: State, id: CmdId, limit: int)
    requires Inv(s, limit)
    ensures Inv(s.(db := TimeoutObserved(s.db, id).0), limit)
  {
    if id in s.db.commands && !s.db.commands[id].acked && !s.db.commands[id].timedOut {
      var c := s.db.commands[id];
      NotedKeeps(s, id, c.(timedOut := true), limit);
      UnknownKeeps(s.(db := s.db.(commands := s.db.commands[id := c.(timedOut := true)])), c, limit);
    }
  }

  lemma NeverSentShape(s: State, id: CmdId)
    requires id in s.db.commands
    ensures var c := s.db.commands[id]; var t := Resolved(s, id, OutError, ByLocal, None);
      NeverDispatched(s.db, id) ==
        match c.kind
        case Place => PlaceFailed(t.db, c.client, c.reservation, Failed)
        case Cancel => s.db
        case Update => SettledState(t, c.reservation, Released).db
  {
  }

  lemma NeverSentKeeps(s: State, id: CmdId, limit: int)
    requires Inv(s, limit) && Spent(s.db) && id in s.db.commands
    ensures Inv(s.(db := NeverDispatched(s.db, id)), limit)
  {
    NeverSentShape(s, id);
    var c := s.db.commands[id];
    if c.kind == Place {
      PlaceErrorKeeps(s, id, ByLocal, limit);
    } else if c.kind == Update {
      if c.resolved { SpentKeeps(s, id, limit); } else { UpdateErrorKeeps(s, id, ByLocal, limit); }
    }
  }

  /** Releasing a resolved update's row again takes nothing from an update still in flight. */
  lemma SpentKeeps(s: State, id: CmdId, limit: int)
    requires Inv(s, limit) && Spent(s.db) && id in s.db.commands
    requires s.db.commands[id].kind == Update && s.db.commands[id].resolved
    ensures Inv(SettledState(s, s.db.commands[id].reservation, Released), limit)
  {
    var c := s.db.commands[id];
    assert SpentFor(s.db, c);
    assert CommandOk(s.db, c);
    if StillReserved(s.db, c.reservation.value) {
      forall cid | cid in s.db.commands && !s.db.commands[cid].resolved && s.db.commands[cid].reservation == c.reservation
        ensures s.db.commands[cid].kind == Update && s.db.commands[cid].qty <= ConfirmedQty(s.db.quotas, s.db.commands[cid].client)
      {
        assert CommandOk(s.db, s.db.commands[cid]);
      }
      ReleaseKeeps(s, c.reservation.value, limit);
    }
  }

  /** The reservation behind a command was not given back, or is not needed any more. */
  ghost predicate Kept(db: Db, c: Command) {
    match c.kind
    case Place => NotGivenBack(db, PlaceRes(c.client))
    case Cancel => true
    case Update => c.qty <= ConfirmedQty(db.quotas, c.client) || (c.reservation.Some? && NotGivenBack(db, c.reservation.value))
  }

  lemma PlaceWritesBack(s: State, id: CmdId, limit: int)
    requires Inv(s, limit) && Shape(s) && Enabled(s, RouteWritesBack(id)) && Kept(s.db, s.db.commands[id])
    requires s.db.commands[id].kind == Place && !OrdnoTaken(s.db.orders, s.db.commands[id].client, s.told[id])
    ensures Inv(s.(db := RouteTail(s.db, id, s.told[id])), limit)
  {
    var c := s.db.commands[id];
    assert Scoped(s, id);
    PlaceConfirmed(s, id, limit);
    PlaceNumbered(ConfirmedState(s, id), id, s.told[id], limit);
    assert s.(db := RouteTail(s.db, id, s.told[id])) == NumberedState(ConfirmedState(s, id), id, s.told[id]);
  }

  /** Confirming an update's reservation that was not given back covers the update. */
  lemma KeptCovers(s: State, id: CmdId, limit: int)
    requires Inv(s, limit) && id in s.db.commands && s.db.commands[id].kind == Update && Kept(s.db, s.db.commands[id])
    ensures var c := s.db.commands[id]; var t := SettledState(s, c.reservation, Confirmed);
      Inv(t, limit) && 0 < c.qty <= ConfirmedQty(t.db.quotas, c.client)
  {
    var c := s.db.commands[id];
    assert CommandOk(s.db, c);
    ConfirmKeeps(s, c.reservation.value, limit);
    SettleCovers(s.db, c.reservation.value);
  }

  lemma UpdateWritesBack(s: State, id: CmdId, limit: int)
    requires Inv(s, limit) && Enabled(s, RouteWritesBack(id)) && Kept(s.db, s.db.commands[id])
    requires s.db.commands[id].kind == Update && Known(s.db, s.db.commands[id].client)
    ensures Inv(s.(db := RouteTail(s.db, id, s.told[id])), limit)
  {
    var c := s.db.commands[id];
    assert CommandOk(s.db, c);
    var i := FindClient(s.db.orders, c.client);
    KeptCovers(s, id, limit);
    var t := SettledState(s, c.reservation, Confirmed);
    UpdateAckKeeps(t, i, c.price, c.qty, limit);
    assert s.(db := RouteTail(s.db, id, s.told[id])) == Rewritten(t, i, c);
  }

  lemma WritesBackKeeps(s: State, id: CmdId, limit: int)
    requires Inv(s, limit) && Shape(s) && Enabled(s, RouteWritesBack(id)) && Kept(s.db, s.db.commands[id])
    ensures Inv(s.(db := RouteTail(s.db, id, s.told[id])), limit)
  {
    CommandOrder(s, id, limit);
    var c := s.db.commands[id];
    match c.kind
    case Place => if !OrdnoTaken(s.db.orders, c.client, s.told[id]) { PlaceWritesBack(s, id, limit); }
    case Cancel => CancelWritesBack(s, id, limit);
    case Update => UpdateWritesBack(s, id, limit);
  }

  lemma CancelWritesBack(s: State, id: CmdId, limit: int)
    requires Inv(s, limit) && id in s.db.commands && s.db.commands[id].kind == Cancel && Known(s.db, s.db.commands[id].client)
    ensures Inv(Marked(s, FindClient(s.db.orders, s.db.commands[id].client), Cancelled), limit)
  {
    assert CommandOk(s.db, s.db.commands[id]);
    MarkKeeps(s, FindClient(s.db.orders, s.db.commands[id].client), Cancelled, limit);
  }

  lemma QueryShape(s: State, id: CmdId, realQty: Option<int>)
    requires id in s.db.commands && !s.db.commands[id].resolved && s.db.commands[id].ordno.Some?
    requires s.db.commands[id].kind == Update && FindCommandOrder(s.db, s.db.commands[id]) < |s.db.orders|
    ensures var c := s.db.commands[id]; var i := FindCommandOrder(s.db, c); var (next, d) := ResolveUpdate(s.db, id, realQty);
      next ==
        match d
        case ConfirmedByQty => Resolved(Rewritten(SettledState(s, c.reservation, Confirmed), i, c), id, OutOk, ByQuery, None).db
        case ReleasedByQty => SettledState(Resolved(s, id, OutError, ByQuery, None), c.reservation, Released).db
        case ConservativelyConfirmed => Resolved(SettledState(s, c.reservation, Confirmed), id, OutUnknown, ByReport, None).db
        case LeftPending => s.db
  {
  }

  lemma QueryKeeps(s: State, id: CmdId, realQty: Option<int>, limit: int)
    requires Inv(s, limit) && id in s.db.commands && s.db.commands[id].kind == Update
    ensures Inv(s.(db := ResolveUpdate(s.db, id, realQty).0), limit)
  {
    var c := s.db.commands[id];
    if !c.resolved {
      CommandOrder(s, id, limit);
      assert CommandOk(s.db, c);
      QueryShape(s, id, realQty);
      match ResolveUpdate(s.db, id, realQty).1
      case ConfirmedByQty => UpdateOkKeeps(s, id, ByQuery, None, limit);
      case ReleasedByQty => UpdateErrorKeeps(s, id, ByQuery, limit);
      case ConservativelyConfirmed =>
        UpdateConfirmed(s, id, limit);
        ResolveKeeps(SettledState(s, c.reservation, Confirmed), id, OutUnknown, ByReport, None, limit);
      case LeftPending =>
    }
  }

  lemma PlaceDecidedKeeps(s: State, o: Order, id: CmdId, expires: int, crashed: bool, limit: int)
    requires Inv(s, limit) && Enabled(s, PlaceDecided(o, id, expires, crashed))
    ensures Inv(Apply(s, PlaceDecided(o, id, expires, crashed), limit), limit)
  {
    PlaceChecked(s, o, limit);
    var t := s.(db := CheckPlace(s.db, o, limit));
    if !crashed && Known(t.db, o.client) {
      forall cid | cid in t.db.commands ensures t.db.commands[cid].client != o.client {
        assert CommandOk(s.db, s.db.commands[cid]);
      }
      InsertedPlain(t, id, Place, o.client, expires, limit);
    }
  }

  /** No update enters the ledger, and no answer is written back, on a reservation that was given back. */
  ghost predicate Guarded(s: State, e: Event) {
    && (e.UpdateInserted? && e.a in s.attempts && !UpdateUnresolved(s.db.commands, s.attempts[e.a].client) ==>
          InsertGuard(s.db, s.attempts[e.a]))
    && (e.RouteWritesBack? && e.id in s.db.commands ==> Kept(s.db, s.db.commands[e.id]))
  }

  lemma ToldIsBeside(s: State, told: map<CmdId, Option<Ordno>>, limit: int)
    requires Inv(s, limit)
    ensures Inv(s.(told := told), limit)
  {
  }

  lemma CommandStepKeeps(s: State, e: Event, limit: int)
    requires FullInv(s, limit) && Enabled(s, e) && Guarded(s, e) && CommandEvent?(e)
    ensures Inv(Apply(s, e, limit), limit)
  {
    match e
    case AckArrives(id, user, ack) =>
      AckKeeps(s, id, user, ack, limit);
      ToldIsBeside(s.(db := ApplyAck(s.db, id, user, ack).0), Told(s, id, user, ack), limit);
    case RouteTimesOut(id) => TimesOutKeeps(s, id, limit);
    case RouteNeverSends(id) => NeverSentKeeps(s, id, limit);
    case RouteWritesBack(id) => WritesBackKeeps(s, id, limit);
    case QuantityQueried(id, realQty) => QueryKeeps(s, id, realQty, limit);
    case CancelReported(id) => ResolveKeeps(s, id, OutUnknown, ByReport, None, limit);
  }

  lemma StepKeepsInv(s: State, e: Event, limit: int)
    requires FullInv(s, limit) && Enabled(s, e) && Guarded(s, e)
    ensures Inv(Apply(s, e, limit), limit)
  {
    if CommandEvent?(e) {
      CommandStepKeeps(s, e, limit);
    } else {
      match e
      case PlaceDecided(o, id, expires, crashed) => PlaceDecidedKeeps(s, o, id, expires, crashed, limit);
      case CancelDecided(id, k, expires) => InsertedPlain(s, id, Cancel, k, expires, limit);
      case UpdateChecked(a, k, qty, price) => UpdateCheckKeeps(s, a, k, qty, price, limit);
      case UpdateInserted(a, id, expires) => UpdateInsertKeeps(s, a, id, expires, limit);
      case StatusReported(k, status) => MarkKeeps(s, FindClient(s.db.orders, k), status, limit);
    }
  }

  // ---- Spent rows stay spent ----

  lemma SpentCarries(db: Db, next: Db, c: Command, n: Command)
    requires SpentFor(db, c) && c.resolved && SameRequest(c, n) && QuotasForward(db, next)
    ensures SpentFor(next, n)
  {
  }

  /** A newly resolved update leaves its row settled. */
  lemma SpentByResolve(db: Db, next: Db, c: Command, n: Command)
    requires UniqueRes(db.quotas) && Positive(db.quotas)
    requires CommandOk(db, c) && CommandOk(next, n) && !c.resolved && n.resolved && SameRequest(c, n)
    requires next.quotas == SettleOpt(db.quotas, c.reservation, Confirmed) || next.quotas == SettleOpt(db.quotas, c.reservation, Released)
    ensures SpentFor(next, n)
  {
    if c.reservation.Some? {
      SettleForward(db, c.reservation.value, Confirmed);
      SettleForward(db, c.reservation.value, Released);
    }
    assert ConfirmedQty(db.quotas, c.client) <= ConfirmedQty(next.quotas, c.client);
  }

  predicate Both(db: Db, next: Db, id: CmdId)
    requires id in db.commands && id in next.commands
  {
    var res := db.commands[id].reservation;
    next.commands[id].resolved ==>
      next.quotas == SettleOpt(db.quotas, res, Confirmed) || next.quotas == SettleOpt(db.quotas, res, Released)
  }

  lemma AckBoth(db: Db, id: CmdId, user: UserId, ack: Ack)
    requires id in db.commands && !db.commands[id].resolved && db.commands[id].kind == Update
    requires FindCommandOrder(db, db.commands[id]) < |db.orders|
    ensures id in ApplyAck(db, id, user, ack).0.commands && Both(db, ApplyAck(db, id, user, ack).0, id)
  {
  }

  lemma OtherBoth(db: Db, id: CmdId, ordno: Option<Ordno>, realQty: Option<int>)
    requires id in db.commands && !db.commands[id].resolved && db.commands[id].kind == Update
    requires FindCommandOrder(db, db.commands[id]) < |db.orders|
    ensures id in TimeoutObserved(db, id).0.commands && Both(db, TimeoutObserved(db, id).0, id)
    ensures id in NeverDispatched(db, id).commands && Both(db, NeverDispatched(db, id), id)
    ensures id in RouteTail(db, id, ordno).commands && Both(db, RouteTail(db, id, ordno), id)
    ensures id in ResolveUpdate(db, id, realQty).0.commands && Both(db, ResolveUpdate(db, id, realQty).0, id)
  {
  }

  /** An event about one command leaves the other rows alone. */
  lemma OtherRows(s: State, e: Event, id: CmdId, limit: int)
    requires Enabled(s, e) && id in s.db.commands && (CommandEvent?(e) ==> EventCommand(e) != id)
    ensures id in Apply(s, e, limit).db.commands && Apply(s, e, limit).db.commands[id] == s.db.commands[id]
  {
    if CommandEvent?(e) {
      OnlyItsRow(s, e, limit);
    } else {
      assert e.UpdateChecked? ==> CheckUpdate(s.db, e.k, e.qty, e.price, limit).0.commands == s.db.commands;
    }
  }

  lemma OnlyItsRow(s: State, e: Event, limit: int)
    requires Enabled(s, e) && CommandEvent?(e)
    ensures OnlyRow(s.db.commands, Apply(s, e, limit).db.commands, EventCommand(e))
  {
    match e
    case AckArrives(cid, user, ack) => AckLedger(s.db, cid, user, ack);
    case RouteTimesOut(cid) => RouteRow(s.db, cid);
    case RouteNeverSends(cid) => RouteRow(s.db, cid);
    case RouteWritesBack(cid) => RouteLedger(s.db, cid, s.told[cid]);
    case QuantityQueried(cid, realQty) => QueryRow(s.db, cid, realQty);
    case CancelReported(cid) => QueryRow(s.db, cid, None);
  }

  lemma RouteRow(db: Db, id: CmdId)
    requires id in db.commands
    ensures OnlyRow(db.commands, TimeoutObserved(db, id).0.commands, id)
    ensures OnlyRow(db.commands, NeverDispatched(db, id).commands, id)
  {
    NeverSentShape(State(db, map[], map[]), id);
  }

  lemma QueryRow(db: Db, id: CmdId, realQty: Option<int>)
    ensures OnlyRow(db.commands, ResolveUpdate(db, id, realQty).0.commands, id)
    ensures OnlyRow(db.commands, ResolveCancel(db, id).0.commands, id)
  {
  }

  /** An update is resolved only together with its reservation being settled. */
  lemma ResolvedTogether(s: State, e: Event, id: CmdId, limit: int)
    requires Enabled(s, e) && id in s.db.commands && s.db.commands[id].kind == Update && !s.db.commands[id].resolved
    requires FindCommandOrder(s.db, s.db.commands[id]) < |s.db.orders|
    ensures id in Apply(s, e, limit).db.commands && Both(s.db, Apply(s, e, limit).db, id)
  {
    if CommandEvent?(e) && EventCommand(e) == id {
      match e
      case AckArrives(_, user, ack) => AckBoth(s.db, id, user, ack);
      case RouteTimesOut(_) => OtherBoth(s.db, id, None, None);
      case RouteNeverSends(_) => OtherBoth(s.db, id, None, None);
      case RouteWritesBack(_) => OtherBoth(s.db, id, s.told[id], None);
      case QuantityQueried(_, realQty) => OtherBoth(s.db, id, None, realQty);
    } else {
      OtherRows(s, e, id, limit);
    }
  }

  lemma StepKeepsSpent(s: State, e: Event, limit: int)
    requires Inv(s, limit) && Spent(s.db) && Enabled(s, e) && Inv(Apply(s, e, limit), limit)
    ensures Spent(Apply(s, e, limit).db)
  {
    var next := Apply(s, e, limit).db;
    QuotasMove(s, e, limit);
    LedgerMoves(s, e, limit);
    forall id | id in next.commands ensures SpentFor(next, next.commands[id]) {
      if id in s.db.commands {
        SpentRow(s, e, id, limit);
      } else {
        NewRow(s, e, id, limit);
      }
    }
  }

  lemma SpentRow(s: State, e: Event, id: CmdId, limit: int)
    requires Inv(s, limit) && Spent(s.db) && Enabled(s, e) && CommandsOk(Apply(s, e, limit).db) && id in s.db.commands
    requires QuotasForward(s.db, Apply(s, e, limit).db) && KeepsRequests(s.db.commands, Apply(s, e, limit).db.commands)
    ensures id in Apply(s, e, limit).db.commands && SpentFor(Apply(s, e, limit).db, Apply(s, e, limit).db.commands[id])
  {
    var c := s.db.commands[id];
    var next := Apply(s, e, limit).db;
    var n := next.commands[id];
    assert SameRequest(c, n);
    if c.resolved {
      assert SpentFor(s.db, c);
      SpentCarries(s.db, next, c, n);
    } else if c.kind == Update && n.resolved {
      CommandOrder(s, id, limit);
      ResolvedTogether(s, e, id, limit);
      assert CommandOk(s.db, c) && CommandOk(next, n);
      SpentByResolve(s.db, next, c, n);
    }
  }

  lemma NewRow(s: State, e: Event, id: CmdId, limit: int)
    requires Enabled(s, e) && id !in s.db.commands && id in Apply(s, e, limit).db.commands
    ensures !Apply(s, e, limit).db.commands[id].resolved
  {
    match e
    case AckArrives(cid, user, ack) => AckLedger(s.db, cid, user, ack);
    case RouteTimesOut(cid) => RouteLedger(s.db, cid, None);
    case RouteNeverSends(cid) => RouteLedger(s.db, cid, None);
    case RouteWritesBack(cid) => RouteLedger(s.db, cid, s.told[cid]);
    case _ =>
  }

  /** Reservations cover what orders may execute, settled rows stay settled, and numbers are those that were told. */
  ghost predicate FullInv(s: State, limit: int) { Inv(s, limit) && Spent(s.db) && Shape(s) }

  lemma StepKeeps(s: State, e: Event, limit: int)
    requires FullInv(s, limit) && Enabled(s, e) && Guarded(s, e)
    ensures FullInv(Apply(s, e, limit), limit)
  {
    StepKeepsInv(s, e, limit);
    StepKeepsSpent(s, e, limit);
    ShapeStep(s, e, limit);
  }
}
