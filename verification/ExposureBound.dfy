/** The exposure bound over whole runs, the two windows in which it can be lost, and exactly when. */
module ExposureBound {
  import opened Common
  import opened Ledger
  import opened Server
  import opened Tables
  import opened Reservations
  import opened LedgerSteps
  import opened SingleFlight
  import opened ReservationSteps

  /** Active reservations of every order that has not failed cover its current quantity. */
  ghost predicate Covered(db: Db) {
    forall i :: 0 <= i < |db.orders| && db.orders[i].status != Failed ==>
      db.orders[i].qty <= HeldQty(db.quotas, db.orders[i].client)
  }

  ghost predicate Bounded(db: Db, limit: int) {
    forall user, mode, day :: Exposure(db.orders, user, mode, day) <= limit
  }

  lemma OrderCovered(s: State, i: nat, limit: int)
    requires Inv(s, limit) && i < |s.db.orders| && s.db.orders[i].status != Failed
    ensures s.db.orders[i].qty <= HeldQty(s.db.quotas, s.db.orders[i].client)
  {
    var o := s.db.orders[i];
    assert OrderOk(s.db, o);
    ConfirmedWithinHeld(s.db.quotas, o.client);
    var j := FindQuota(s.db.quotas, PlaceRes(o.client));
    if s.db.quotas[j].state == Reserved { HeldCounts(s.db.quotas, j); }
  }

  lemma InvBounds(s: State, limit: int)
    requires Inv(s, limit)
    ensures Covered(s.db) && Bounded(s.db, limit)
  {
    var db := s.db;
    forall i | 0 <= i < |db.orders| && db.orders[i].status != Failed
      ensures db.orders[i].qty <= HeldQty(db.quotas, db.orders[i].client)
    {
      OrderCovered(s, i, limit);
    }
    forall user, mode, day ensures Exposure(db.orders, user, mode, day) <= limit {
      ExposureWithinHeld(db.quotas, db.orders, user, mode, day);
      forall i, j | 0 <= i < |db.orders| && 0 <= j < |db.quotas|
        ensures db.quotas[j].id.client == db.orders[i].client && Counted(db.orders[i], user, mode, day) ==>
                  InScope(db.quotas[j], user, mode, day)
      {
        FoundByClient(db.orders, i);
        assert QuotaOk(db, db.quotas[j]);
      }
      HeldByOrdersWithinUsed(db.quotas, db.orders, user, mode, day);
    }
  }

  lemma {:induction false} InvOverRun(states: seq<State>, events: seq<Event>, limit: int, n: nat)
    requires Run(states, events, limit) && 0 <= limit && n < |states|
    requires forall i :: 0 <= i < |events| ==> Guarded(states[i], events[i])
    ensures FullInv(states[n], limit)
  {
    if n == 0 {
      assert FullInv(Start, limit);
    } else {
      InvOverRun(states, events, limit, n - 1);
      assert Linked(states, events, limit, n - 1);
      StepKeeps(states[n - 1], events[n - 1], limit);
    }
  }

  /** Main result: in every run without a stale insert and without a stale write-back, at every point, every live
      order is covered by its own active reservations and no user's exposure for a mode and day exceeds the limit. */
  lemma ExposureNeverExceedsLimit(states: seq<State>, events: seq<Event>, limit: int, n: nat)
    requires Run(states, events, limit) && 0 <= limit && n < |states|
    requires forall i :: 0 <= i < |events| ==> Guarded(states[i], events[i])
    ensures Covered(states[n].db) && Bounded(states[n].db, limit)
  {
    InvOverRun(states, events, limit, n);
    InvBounds(states[n], limit);
  }

  /** A check a route could make before it writes back: that its row has not been settled as an error. */
  predicate ChecksOutcome(s: State, e: Event) {
    e.RouteWritesBack? && e.id in s.db.commands ==> s.db.commands[e.id].outcome != Some(OutError)
  }

  /** It is enough: a row without an error still has its reservation. */
  lemma OutcomeSuffices(s: State, id: CmdId, limit: int)
    requires Inv(s, limit) && id in s.db.commands && s.db.commands[id].outcome != Some(OutError)
    ensures Kept(s.db, s.db.commands[id])
  {
    assert CommandOk(s.db, s.db.commands[id]);
  }

  /** With that check, in every run without a stale insert. */
  lemma {:induction false} CheckedOutcomesKeepLimit(states: seq<State>, events: seq<Event>, limit: int, n: nat)
    requires Run(states, events, limit) && 0 <= limit && n < |states|
    requires forall i :: 0 <= i < |events| ==> ChecksOutcome(states[i], events[i]) && (events[i].UpdateInserted? ==> Guarded(states[i], events[i]))
    ensures FullInv(states[n], limit) && Covered(states[n].db) && Bounded(states[n].db, limit)
  {
    if n == 0 {
      assert FullInv(Start, limit);
    } else {
      var s, e := states[n - 1], events[n - 1];
      CheckedOutcomesKeepLimit(states, events, limit, n - 1);
      assert Linked(states, events, limit, n - 1);
      assert ChecksOutcome(s, e);
      if e.RouteWritesBack? { OutcomeSuffices(s, e.id, limit); }
      StepKeeps(s, e, limit);
    }
    InvBounds(states[n], limit);
  }

  // ---- Exactly when ----

  /** A confirmed update is within its order's confirmed quota if and only if its reservation was still there, or
      never needed, when its first ack said `ok`: the order is rewritten either way. */
  lemma AckIsExact(s: State, id: CmdId, ack: Ack)
    requires Shape(s) && UniqueRes(s.db.quotas) && Positive(s.db.quotas) && QuotasOk(s.db)
    requires id in s.db.commands && ack.ok && !s.db.commands[id].acked && !s.db.commands[id].resolved
    requires var c := s.db.commands[id]; c.kind == Update && c.price.Some? && c.reservation == Some(UpdateRes(c.client, c.qty, c.price.value))
    ensures var c := s.db.commands[id]; var after := ApplyAck(s.db, id, c.user, ack).0;
      && Known(after, c.client) && OrderOf(after, c.client).qty == c.qty
      && (OrderOf(after, c.client).qty <= ConfirmedQty(after.quotas, c.client) <==> Kept(s.db, c))
  {
    var c := s.db.commands[id];
    assert Scoped(s, id);
    FoundByOrdno(s.db.orders, c.client, c.ordno.value);
    UpdateAcked(s.db, id, ack);
    var i := FindClient(s.db.orders, c.client);
    UpdatedOrder(s.db.orders, i, UpdateAckOrder(s.db.orders[i], c.price, c.qty));
    SettleCovers(s.db, c.reservation.value);
  }

  lemma UpdateAcked(db: Db, id: CmdId, ack: Ack)
    requires id in db.commands && ack.ok && !db.commands[id].acked && !db.commands[id].resolved && db.commands[id].kind == Update
    requires FindCommandOrder(db, db.commands[id]) < |db.orders|
    ensures var c := db.commands[id]; var i := FindCommandOrder(db, c); var after := ApplyAck(db, id, c.user, ack).0;
      && after.orders == db.orders[i := UpdateAckOrder(db.orders[i], c.price, c.qty)]
      && after.quotas == SettleOpt(db.quotas, c.reservation, Confirmed)
  {
  }

  /** A write-back leaves its order within confirmed quota if and only if its reservation was not given back. A
      placement whose reservation was given back stands open with nothing held for it at all. */
  lemma WriteBackIsExact(s: State, id: CmdId, limit: int)
    requires FullInv(s, limit) && Enabled(s, RouteWritesBack(id)) && s.db.commands[id].kind != Cancel
    requires s.db.commands[id].kind == Place ==> !OrdnoTaken(s.db.orders, s.db.commands[id].client, s.told[id])
    ensures var c := s.db.commands[id]; var after := Apply(s, RouteWritesBack(id), limit).db;
      && Known(after, c.client)
      && (OrderOf(after, c.client).qty <= ConfirmedQty(after.quotas, c.client) <==> Kept(s.db, c))
      && (c.kind == Place && !Kept(s.db, c) ==> OrderOf(after, c.client).status == Submitted && HeldQty(after.quotas, c.client) == 0)
  {
    var c := s.db.commands[id];
    assert CommandOk(s.db, c);
    if c.kind == Place { PlaceBackIsExact(s, id, limit); } else { UpdateBackIsExact(s, id, limit); }
  }

  lemma UpdateBackIsExact(s: State, id: CmdId, limit: int)
    requires FullInv(s, limit) && Enabled(s, RouteWritesBack(id)) && s.db.commands[id].kind == Update
    ensures var c := s.db.commands[id]; var after := Apply(s, RouteWritesBack(id), limit).db;
      Known(after, c.client) && (OrderOf(after, c.client).qty <= ConfirmedQty(after.quotas, c.client) <==> Kept(s.db, c))
  {
    var c := s.db.commands[id];
    assert CommandOk(s.db, c);
    var i := FindClient(s.db.orders, c.client);
    UpdatedOrder(s.db.orders, i, UpdateAckOrder(s.db.orders[i], c.price, c.qty));
    UpdateBackShape(s, id, limit);
    SettleCovers(s.db, c.reservation.value);
  }

  lemma UpdateBackShape(s: State, id: CmdId, limit: int)
    requires Enabled(s, RouteWritesBack(id)) && s.db.commands[id].kind == Update && Known(s.db, s.db.commands[id].client)
    ensures var c := s.db.commands[id]; var i := FindClient(s.db.orders, c.client); var after := Apply(s, RouteWritesBack(id), limit).db;
      && after.orders == s.db.orders[i := UpdateAckOrder(s.db.orders[i], c.price, c.qty)]
      && after.quotas == SettleOpt(s.db.quotas, c.reservation, Confirmed)
  {
  }

  lemma PlaceBackIsExact(s: State, id: CmdId, limit: int)
    requires FullInv(s, limit) && Enabled(s, RouteWritesBack(id)) && s.db.commands[id].kind == Place
    requires !OrdnoTaken(s.db.orders, s.db.commands[id].client, s.told[id])
    ensures var c := s.db.commands[id]; var after := Apply(s, RouteWritesBack(id), limit).db;
      && Known(after, c.client)
      && (OrderOf(after, c.client).qty <= ConfirmedQty(after.quotas, c.client) <==> Kept(s.db, c))
      && (!Kept(s.db, c) ==> OrderOf(after, c.client).status == Submitted && HeldQty(after.quotas, c.client) == 0)
  {
    var c := s.db.commands[id];
    assert CommandOk(s.db, c);
    var i := FindClient(s.db.orders, c.client);
    var o := s.db.orders[i];
    assert OrderOk(s.db, o);
    UpdatedOrder(s.db.orders, i, PlaceAckOrder(o, s.told[id]));
    if Kept(s.db, c) {
      PlaceConfirmed(s, id, limit);
      assert OrderOk(ConfirmedState(s, id).db, o);
    } else {
      forall j | 0 <= j < |s.db.quotas| && s.db.quotas[j].id.client == c.client ensures !Active(s.db.quotas[j].state) {
        assert QuotaOk(s.db, s.db.quotas[j]);
        FoundById(s.db.quotas, j);
      }
      NothingActive(s.db.quotas, c.client);
      ConfirmedWithinHeld(s.db.quotas, c.client);
    }
  }

  lemma {:induction false} NothingActive(quotas: seq<Quota>, k: ClientId)
    requires forall j :: 0 <= j < |quotas| && quotas[j].id.client == k ==> !Active(quotas[j].state)
    ensures HeldQty(quotas, k) == 0
  {
    if quotas != [] { NothingActive(quotas[1..], k); }
  }

  /** State after an update attempt has been inserted and its ack has said `ok`. */
  function AfterOk(db: Db, id: CmdId, t: Attempt, expires: int, user: UserId): Db {
    ApplyAck(InsertUpdate(db, id, t.client, t.qty, t.price, expires).0, id, user, Ack(true, None, None)).0
  }

  /** The guard is exact: an update that enters the ledger and is carried out leaves its order within
      confirmed quota if and only if its reservation was still there (or never needed) at the insert. */
  lemma GuardIsExact(s: State, t: Attempt, id: CmdId, expires: int, limit: int)
    requires Inv(s, limit) && AttemptOk(s.db, t) && id !in s.db.commands && !UpdateUnresolved(s.db.commands, t.client)
    ensures Known(s.db, t.client)
    ensures var after := AfterOk(s.db, id, t, expires, OrderOf(s.db, t.client).user);
      && Known(after, t.client) && OrderOf(after, t.client).qty == t.qty
      && (OrderOf(after, t.client).qty <= ConfirmedQty(after.quotas, t.client) <==> InsertGuard(s.db, t))
  {
    var k := t.client;
    var i := FindClient(s.db.orders, k);
    var o := s.db.orders[i];
    var res := UpdateRes(k, t.qty, t.price);
    FoundByOrdno(s.db.orders, k, o.ordno.value);
    UpdatedOrder(s.db.orders, i, UpdateAckOrder(o, Some(t.price), t.qty));
    SettleCovers(s.db, res);
    InsertedThenOk(s.db, t, id, expires);
  }

  lemma InsertedThenOk(db: Db, t: Attempt, id: CmdId, expires: int)
    requires id !in db.commands && !UpdateUnresolved(db.commands, t.client) && Known(db, t.client)
    requires var o := OrderOf(db, t.client);
      o.ordno.Some? && FindOrdno(db.orders, o.account, o.mode, o.ordno.value) == FindClient(db.orders, t.client)
    ensures var o := OrderOf(db, t.client); var after := AfterOk(db, id, t, expires, o.user);
      && after.orders == db.orders[FindClient(db.orders, t.client) := UpdateAckOrder(o, Some(t.price), t.qty)]
      && after.quotas == Settle(db.quotas, UpdateRes(t.client, t.qty, t.price), Confirmed)
  {
  }

  // ---- The window between check and insert ----

  function Lot(k: ClientId, qty: int): Order { Order(k, 1, 1, Sim, 0, qty, 100.0, None, Pending) }

  /** Two requests with the same content: the second one's check finds the first one's reservation
      still held, the first is refused and gives it back, and the second is then inserted without it. */
  function Leak(): seq<Event> {
    [PlaceDecided(Lot(1, 5), 100, 0, false),
     AckArrives(100, 1, Ack(true, None, Some(7))),
     UpdateChecked(0, 1, 7, 100.0),
     UpdateInserted(0, 101, 0),
     UpdateChecked(1, 1, 7, 100.0),
     AckArrives(101, 1, Ack(false, Some(Expired), None)),
     UpdateInserted(1, 102, 0),
     AckArrives(102, 1, Ack(true, None, None)),
     PlaceDecided(Lot(2, 5), 103, 0, false)]
  }

  function LeakRow(qty: int, acked: bool, verdict: Option<Outcome>): Command {
    NewCommand(Update, Lot(1, 5).(ordno := Some(7)), Some(UpdateRes(1, qty, 100.0)), qty, Some(100.0), 0)
    .(acked := acked, outcome := verdict, via := if verdict.Some? then Some(ByAck) else None, resolved := verdict.Some?)
  }

  function LeakPlaced(k: ClientId): Command {
    NewCommand(Place, Lot(k, 5), Some(PlaceRes(k)), 5, Some(100.0), 0)
  }

  function LeakDone(): Command {
    LeakPlaced(1).(acked := true, outcome := Some(OutOk), via := Some(ByAck), resolved := true, resultOrdno := Some(7))
  }

  function LeakOrder(qty: int): Order { Lot(1, qty).(ordno := Some(7), status := Submitted) }

  function Held(id: ResId, qty: int, state: QuotaState): Quota { Quota(id, 1, Sim, 0, qty, state) }

  /** The states the leak passes through. */
  function LeakStates(): seq<State> {
    var place, delta := PlaceRes(1), UpdateRes(1, 7, 100.0);
    var done, sent, refused, second := LeakDone(), LeakRow(7, false, None), LeakRow(7, true, Some(OutError)), LeakRow(7, true, Some(OutOk));
    var paid, back := [Held(place, 5, Confirmed), Held(delta, 2, Reserved)], [Held(place, 5, Confirmed), Held(delta, 2, Released)];
    var t, told := Attempt(1, 7, 100.0), map[100 := Some(7)];
    [Start,
     State(Db(map[100 := LeakPlaced(1)], [Lot(1, 5)], [Held(place, 5, Reserved)]), map[], map[]),
     State(Db(map[100 := done], [LeakOrder(5)], [Held(place, 5, Confirmed)]), map[], told),
     State(Db(map[100 := done], [LeakOrder(5)], paid), map[0 := t], told),
     State(Db(map[100 := done, 101 := sent], [LeakOrder(5)], paid), map[], told),
     State(Db(map[100 := done, 101 := sent], [LeakOrder(5)], paid), map[1 := t], told),
     State(Db(map[100 := done, 101 := refused], [LeakOrder(5)], back), map[1 := t], told),
     State(Db(map[100 := done, 101 := refused, 102 := sent], [LeakOrder(5)], back), map[], told),
     State(Db(map[100 := done, 101 := refused, 102 := second], [LeakOrder(7)], back), map[], told[102 := None]),
     State(Db(map[100 := done, 101 := refused, 102 := second, 103 := LeakPlaced(2)], [LeakOrder(7), Lot(2, 5)],
              back + [Held(PlaceRes(2), 5, Reserved)]), map[], told[102 := None])]
  }

  lemma LeakPlaces()
    ensures Linked(LeakStates(), Leak(), 10, 0)
  {
  }

  lemma LeakAccepts()
    ensures Linked(LeakStates(), Leak(), 10, 1)
  {
  }

  lemma LeakUpdates()
    ensures Linked(LeakStates(), Leak(), 10, 2)
    ensures Linked(LeakStates(), Leak(), 10, 3)
  {
  }

  lemma LeakRechecks()
    ensures Linked(LeakStates(), Leak(), 10, 4)
  {
    assert FindQuota(LeakStates()[4].db.quotas, UpdateRes(1, 7, 100.0)) == 1;
  }

  lemma LeakRefuses()
    ensures Linked(LeakStates(), Leak(), 10, 5)
    ensures Linked(LeakStates(), Leak(), 10, 6)
  {
  }

  lemma LeakUnguarded()
    ensures !Guarded(LeakStates()[6], Leak()[6])
  {
    var db := LeakStates()[6].db;
    assert FindQuota(db.quotas, UpdateRes(1, 7, 100.0)) == 1;
    assert db.quotas[1..] == [Held(UpdateRes(1, 7, 100.0), 2, Released)];
    assert ConfirmedQty(db.quotas[1..], 1) == 0;
    assert !UpdateUnresolved(db.commands, 1);
  }

  lemma LeakEnds()
    ensures Linked(LeakStates(), Leak(), 10, 7)
  {
  }

  lemma LeakPlacesAgain()
    ensures Linked(LeakStates(), Leak(), 10, 8)
  {
    var db := LeakStates()[8].db;
    assert db.quotas[1..] == [Held(UpdateRes(1, 7, 100.0), 2, Released)];
    assert Used(db.quotas[1..], 1, Sim, 0) == 0;
    assert FindQuota(db.quotas, PlaceRes(2)) == 2;
    assert FindClient(db.orders, 2) == 1;
    assert FindClient(LeakStates()[9].db.orders, 2) == 1;
  }

  lemma LeakStep(i: nat)
    requires i < 9
    ensures Linked(LeakStates(), Leak(), 10, i)
  {
    if i == 0 { LeakPlaces(); }
    else if i == 1 { LeakAccepts(); }
    else if i < 4 { LeakUpdates(); }
    else if i == 4 { LeakRechecks(); }
    else if i < 7 { LeakRefuses(); }
    else if i == 7 { LeakEnds(); }
    else { LeakPlacesAgain(); }
  }

  /** Without the guard the bound is lost: twelve lots against a limit of ten. */
  lemma LeakExceedsLimit()
    ensures Run(LeakStates(), Leak(), 10) && !Guarded(LeakStates()[6], Leak()[6])
    ensures Exposure(LeakStates()[9].db.orders, 1, Sim, 0) == 12
  {
    LeakUnguarded();
    forall i | 0 <= i < 9 ensures Linked(LeakStates(), Leak(), 10, i) { LeakStep(i); }
    var orders := LeakStates()[9].db.orders;
    assert orders[1..] == [Lot(2, 5)];
  }

  // ---- The write-back of a refused placement ----

  /** A replay of the first placement is refused by a latched agent, whose reservation of five lots is given back and
      spent on ten others. Then the route that was still waiting for its slot's lock sends it live, the restarted
      agent carries it out (`LinkWindows.LateSendDiverges`), and the route writes its answer back. */
  function Revived(): seq<Event> {
    [PlaceDecided(Lot(1, 5), 100, 0, false),
     AckArrives(100, 1, Ack(false, Some(Failstop), None)),
     PlaceDecided(Lot(2, 10), 101, 0, false),
     AckArrives(100, 1, Ack(true, None, Some(7))),
     RouteWritesBack(100)]
  }

  function RevivedDb(first: Order): Db {
    Db(map[100 := LeakPlaced(1).(acked := true, outcome := Some(OutError), via := Some(ByAck), resolved := true),
           101 := NewCommand(Place, Lot(2, 10), Some(PlaceRes(2)), 10, Some(100.0), 0)],
       [first, Lot(2, 10)], [Held(PlaceRes(1), 5, Released), Held(PlaceRes(2), 10, Reserved)])
  }

  function RevivedStates(): seq<State> {
    var refused := Lot(1, 5).(status := Failed);
    [Start,
     State(Db(map[100 := LeakPlaced(1)], [Lot(1, 5)], [Held(PlaceRes(1), 5, Reserved)]), map[], map[]),
     State(Db(RevivedDb(refused).commands - {101}, [refused], [Held(PlaceRes(1), 5, Released)]), map[], map[]),
     State(RevivedDb(refused), map[], map[]),
     State(RevivedDb(refused), map[], map[100 := Some(7)]),
     State(RevivedDb(LeakOrder(5)), map[], map[100 := Some(7)])]
  }

  lemma RevivedPlaces()
    ensures Linked(RevivedStates(), Revived(), 10, 0)
  {
  }

  lemma RevivedRefuses()
    ensures Linked(RevivedStates(), Revived(), 10, 1)
  {
  }

  lemma RevivedSpends()
    ensures Linked(RevivedStates(), Revived(), 10, 2)
  {
    var db := RevivedStates()[2].db;
    assert FindQuota(db.quotas, PlaceRes(2)) == 1;
    assert Used(db.quotas, 1, Sim, 0) == 0;
    assert FindClient(db.orders, 2) == 1 && FindClient(RevivedStates()[3].db.orders, 2) == 1;
  }

  lemma RevivedReturns()
    ensures Linked(RevivedStates(), Revived(), 10, 3)
    ensures Linked(RevivedStates(), Revived(), 10, 4)
  {
  }

  lemma RevivedStep(i: nat)
    requires i < 5
    ensures Linked(RevivedStates(), Revived(), 10, i)
  {
    if i == 0 { RevivedPlaces(); } else if i == 1 { RevivedRefuses(); } else if i == 2 { RevivedSpends(); } else { RevivedReturns(); }
  }

  lemma RevivedGuarded(i: nat)
    requires i < 5
    ensures Guarded(RevivedStates()[i], Revived()[i]) <==> i < 4
  {
  }

  /** A stale write-back alone loses the bound too: fifteen lots against a limit of ten, and no update at all. */
  lemma WriteBackExceedsLimit()
    ensures Run(RevivedStates(), Revived(), 10)
    ensures forall i :: 0 <= i < 5 ==> (Guarded(RevivedStates()[i], Revived()[i]) <==> i < 4)
    ensures Exposure(RevivedStates()[5].db.orders, 1, Sim, 0) == 15
  {
    forall i | 0 <= i < 5
      ensures Linked(RevivedStates(), Revived(), 10, i)
      ensures Guarded(RevivedStates()[i], Revived()[i]) <==> i < 4
    {
      RevivedStep(i);
      RevivedGuarded(i);
    }
    var orders := RevivedStates()[5].db.orders;
    assert orders[1..] == [Lot(2, 10)];
  }
}
