/** What the unknown-update resolver may conclude from the broker's quantity, why single flight keeps
    its baseline valid, and what the unguarded writes beside the resolvers can undo. */
module Resolvers {
  import opened Common
  import opened Ledger
  import opened Server
  import opened Tables
  import opened Reservations
  import opened LedgerSteps
  import opened ReservationSteps
  import opened ExposureBound
  import opened SingleFlight

  predicate DecidedByQty(d: Resolution) { d == ConfirmedByQty || d == ReleasedByQty }

  // ---- One decision ----

  /** Whatever the baseline, an update the broker carried out never has its reservation released, and a
      decision by quantity leaves the order at the broker's quantity. With the old quantity as the
      baseline the decision is complete as well as sound. */
  lemma QueryDecision(db: Db, id: CmdId, effective: bool, brokerQty: int, realQty: Option<int>)
    requires id in db.commands && !db.commands[id].resolved && db.commands[id].ordno.Some?
    requires FindOrdno(db.orders, db.commands[id].account, db.commands[id].mode, db.commands[id].ordno.value) < |db.orders|
    requires realQty == None || realQty == Some(brokerQty)
    requires effective ==> brokerQty == db.commands[id].qty
    ensures var c := db.commands[id]; var i := FindOrdno(db.orders, c.account, c.mode, c.ordno.value);
      var o := db.orders[i]; var (next, d) := ResolveUpdate(db, id, realQty);
      && (effective ==> next.quotas == db.quotas || next.quotas == SettleOpt(db.quotas, c.reservation, Confirmed))
      && (d == ReleasedByQty ==> !effective)
      && (DecidedByQty(d) ==> next.orders[i].qty == brokerQty)
      && (c.qty == o.qty ==> !DecidedByQty(d))
      && (d == ConservativelyConfirmed ==>
            next == db.(commands := CasResolve(db.commands, id, OutUnknown, ByReport, None).0,
                        quotas := SettleOpt(db.quotas, c.reservation, Confirmed)))
      && (d == ConservativelyConfirmed ==> TerminalForResolver(o.status))
      && (d == LeftPending ==> next == db)
      && ((effective || brokerQty == o.qty) && realQty.Some? && c.qty != o.qty ==>
            d == if effective then ConfirmedByQty else ReleasedByQty)
      && (!effective && brokerQty == o.qty ==> d != ConfirmedByQty)
  {
  }

  // ---- Single flight keeps the baseline ----

  /** The orders of one client keep their place and their quantity. */
  predicate QtyKept(orders: seq<Order>, next: seq<Order>, k: ClientId) {
    && |orders| <= |next|
    && forall j :: 0 <= j < |orders| ==> next[j].client == orders[j].client && (orders[j].client == k ==> next[j].qty == orders[j].qty)
  }

  lemma KeptLookup(orders: seq<Order>, next: seq<Order>, k: ClientId)
    requires QtyKept(orders, next, k) && LookupOrder(orders, k).Some?
    ensures LookupOrder(next, k).Some? && LookupOrder(next, k).value.qty == LookupOrder(orders, k).value.qty
  {
  }

  /** The command's effects rewrite the quantity of that client's order. */
  predicate Rewrites(db: Db, cid: CmdId, k: ClientId) {
    cid in db.commands && db.commands[cid].kind == Update && !db.commands[cid].resolved
    && FindCommandOrder(db, db.commands[cid]) < |db.orders| && db.orders[FindCommandOrder(db, db.commands[cid])].client == k
  }

  lemma OkQty(db: Db, c: Command, ack: Ack, k: ClientId)
    requires c.kind == Update && FindCommandOrder(db, c) < |db.orders| ==> db.orders[FindCommandOrder(db, c)].client != k
    ensures QtyKept(db.orders, OkEffects(db, c, ack).orders, k)
  {
  }

  lemma AckQty(db: Db, cid: CmdId, user: UserId, ack: Ack, k: ClientId)
    requires !Rewrites(db, cid, k) || !ack.ok
    ensures QtyKept(db.orders, ApplyAck(db, cid, user, ack).0.orders, k)
  {
    if cid in db.commands && db.commands[cid].user == user && !db.commands[cid].acked && !db.commands[cid].resolved {
      var c := db.commands[cid];
      if ack.ok {
        if !(c.kind == Place && OrdnoTaken(db.orders, c.client, ack.ordno)) {
          AckShape(State(db, map[], map[]), cid, ack);
          var n := Noted(State(db, map[], map[]), cid);
          OkQty(Resolved(n, cid, OutOk, ByAck, ack.ordno).db, n.db.commands[cid], ack, k);
        }
      } else {
        AckShape(State(db, map[], map[]), cid, ack);
      }
    }
  }

  lemma RouteQty(db: Db, cid: CmdId, k: ClientId)
    ensures QtyKept(db.orders, TimeoutObserved(db, cid).0.orders, k)
    ensures QtyKept(db.orders, NeverDispatched(db, cid).orders, k)
  {
  }

  lemma TailQty(db: Db, cid: CmdId, ordno: Option<Ordno>, k: ClientId)
    requires cid in db.commands && (db.commands[cid].kind != Update || db.commands[cid].client != k)
    ensures QtyKept(db.orders, RouteTail(db, cid, ordno).orders, k)
  {
  }

  lemma QueryQty(db: Db, cid: CmdId, realQty: Option<int>, k: ClientId)
    requires cid in db.commands && db.commands[cid].kind == Update && !Rewrites(db, cid, k)
    ensures QtyKept(db.orders, ResolveUpdate(db, cid, realQty).0.orders, k)
  {
  }

  /** The write-back of some update of this client's order. */
  predicate WritesBackUpdate(db: Db, e: Event, k: ClientId) {
    e.RouteWritesBack? && e.id in db.commands && db.commands[e.id].kind == Update && db.commands[e.id].client == k
  }

  lemma SelfAckResolves(db: Db, id: CmdId, user: UserId, ack: Ack)
    requires id in db.commands && db.commands[id].kind == Update && !db.commands[id].resolved && ack.ok
    requires id in ApplyAck(db, id, user, ack).0.commands && !ApplyAck(db, id, user, ack).0.commands[id].resolved
    ensures ApplyAck(db, id, user, ack).0 == db
  {
  }

  lemma SelfQueryResolves(db: Db, id: CmdId, realQty: Option<int>)
    requires id in db.commands && !db.commands[id].resolved
    requires id in ResolveUpdate(db, id, realQty).0.commands && !ResolveUpdate(db, id, realQty).0.commands[id].resolved
    ensures ResolveUpdate(db, id, realQty).0 == db
  {
  }

  /** This update is the only one that could rewrite its order's quantity. */
  ghost predicate SoleRewriter(db: Db, id: CmdId) {
    id in db.commands && forall cid :: Rewrites(db, cid, db.commands[id].client) ==> cid == id
  }

  lemma InFlightIsSole(s: State, id: CmdId)
    requires Shape(s) && id in s.db.commands && s.db.commands[id].kind == Update && !s.db.commands[id].resolved
    ensures SoleRewriter(s.db, id)
  {
    forall cid | Rewrites(s.db, cid, s.db.commands[id].client) ensures cid == id {
      var c := s.db.commands[cid];
      assert Scoped(s, cid);
      FoundByOrdno(s.db.orders, c.client, c.ordno.value);
    }
  }

  lemma AckKeepsQty(db: Db, id: CmdId, cid: CmdId, user: UserId, ack: Ack)
    requires SoleRewriter(db, id) && db.commands[id].kind == Update && !db.commands[id].resolved
    requires id in ApplyAck(db, cid, user, ack).0.commands && !ApplyAck(db, cid, user, ack).0.commands[id].resolved
    ensures QtyKept(db.orders, ApplyAck(db, cid, user, ack).0.orders, db.commands[id].client)
  {
    if Rewrites(db, cid, db.commands[id].client) && ack.ok {
      SelfAckResolves(db, id, user, ack);
    } else {
      AckQty(db, cid, user, ack, db.commands[id].client);
    }
  }

  lemma QueryKeepsQty(db: Db, id: CmdId, cid: CmdId, realQty: Option<int>)
    requires SoleRewriter(db, id) && db.commands[id].kind == Update && !db.commands[id].resolved
    requires cid in db.commands && db.commands[cid].kind == Update
    requires id in ResolveUpdate(db, cid, realQty).0.commands && !ResolveUpdate(db, cid, realQty).0.commands[id].resolved
    ensures QtyKept(db.orders, ResolveUpdate(db, cid, realQty).0.orders, db.commands[id].client)
  {
    if Rewrites(db, cid, db.commands[id].client) {
      SelfQueryResolves(db, id, realQty);
    } else {
      QueryQty(db, cid, realQty, db.commands[id].client);
    }
  }

  /** While an update is in flight and stays so, its order keeps its quantity. */
  lemma InFlightKeepsQty(s: State, e: Event, id: CmdId, limit: int)
    requires SoleRewriter(s.db, id) && Enabled(s, e) && s.db.commands[id].kind == Update && !s.db.commands[id].resolved
    requires id in Apply(s, e, limit).db.commands && !Apply(s, e, limit).db.commands[id].resolved
    requires !WritesBackUpdate(s.db, e, s.db.commands[id].client)
    ensures QtyKept(s.db.orders, Apply(s, e, limit).db.orders, s.db.commands[id].client)
  {
    var k := s.db.commands[id].client;
    match e
    case AckArrives(cid, user, ack) => AckKeepsQty(s.db, id, cid, user, ack);
    case RouteTimesOut(cid) => RouteQty(s.db, cid, k);
    case RouteNeverSends(cid) => RouteQty(s.db, cid, k);
    case RouteWritesBack(cid) => TailQty(s.db, cid, s.told[cid], k);
    case QuantityQueried(cid, realQty) => QueryKeepsQty(s.db, id, cid, realQty);
    case _ =>
  }

  /** Between two moments of a run at which the same update is in flight, its order's quantity is the same. */
  lemma {:induction false} InFlightBaseline(states: seq<State>, events: seq<Event>, limit: int, id: CmdId, m: nat, n: nat)
    requires Run(states, events, limit) && m <= n < |states|
    requires id in states[m].db.commands && states[m].db.commands[id].kind == Update
    requires id in states[n].db.commands && !states[n].db.commands[id].resolved
    requires forall i :: m <= i < n ==> !WritesBackUpdate(states[i].db, events[i], states[m].db.commands[id].client)
    ensures var k := states[m].db.commands[id].client;
      && LookupOrder(states[m].db.orders, k).Some? && LookupOrder(states[n].db.orders, k).Some?
      && LookupOrder(states[n].db.orders, k).value.qty == LookupOrder(states[m].db.orders, k).value.qty
      && SameRequest(states[m].db.commands[id], states[n].db.commands[id])
    decreases n - m
  {
    var k := states[m].db.commands[id].client;
    ShapeOverRun(states, events, limit, m);
    assert Scoped(states[m], id);
    if m < n {
      assert Linked(states, events, limit, m);
      LedgerMoves(states[m], events[m], limit);
      assert states[m + 1] == Apply(states[m], events[m], limit);
      assert SameRequest(states[m].db.commands[id], states[m + 1].db.commands[id]);
      InFlightBaseline(states, events, limit, id, m + 1, n);
      InFlightIsSole(states[m], id);
      InFlightKeepsQty(states[m], events[m], id, limit);
      KeptLookup(states[m].db.orders, states[m + 1].db.orders, k);
    }
  }

  lemma QueryAt(db: Db, id: CmdId, before: int, effective: bool, realQty: Option<int>)
    requires id in db.commands && !db.commands[id].resolved && db.commands[id].ordno.Some?
    requires UniqueClients(db.orders) && Known(db, db.commands[id].client) && OrderOf(db, db.commands[id].client).qty == before
    requires var c := db.commands[id]; FindOrdno(db.orders, c.account, c.mode, c.ordno.value) == FindClient(db.orders, c.client)
    requires realQty.Some? ==> realQty.value == if effective then db.commands[id].qty else before
    ensures Sound(db, id, before, effective, realQty)
  {
    var c := db.commands[id];
    var i := FindClient(db.orders, c.client);
    QueryDecision(db, id, effective, if effective then c.qty else before, realQty);
    UpdatedOrder(db.orders, i, UpdateAckOrder(db.orders[i], c.price, c.qty));
  }

  /** The resolver's answer to a quantity: right, never guessed, and true to the broker. */
  predicate Sound(db: Db, id: CmdId, before: int, effective: bool, realQty: Option<int>)
    requires id in db.commands
  {
    var c := db.commands[id];
    var (next, d) := ResolveUpdate(db, id, realQty);
    && (d == ConfirmedByQty ==> effective) && (d == ReleasedByQty ==> !effective)
    && (realQty.Some? && c.qty != before ==> DecidedByQty(d))
    && (c.qty == before ==> !DecidedByQty(d))
    && (DecidedByQty(d) ==> Known(next, c.client) && Some(OrderOf(next, c.client).qty) == realQty)
    && (effective ==> next.quotas == db.quotas || next.quotas == SettleOpt(db.quotas, c.reservation, Confirmed))
  }

  function QtyAt(db: Db, k: ClientId): int { if Known(db, k) then OrderOf(db, k).qty else 0 }

  /** Main result: in every run, an update in flight since state `m` whose broker quantity is the target if it took
      effect and the quantity at `m` if not is decided soundly whenever the resolver runs, as long as no
      update of the order is written back in between. */
  lemma QueryResolverIsSound(states: seq<State>, events: seq<Event>, limit: int, id: CmdId, m: nat, n: nat,
                             effective: bool, realQty: Option<int>)
    requires Run(states, events, limit) && m <= n < |states|
    requires id in states[m].db.commands && states[m].db.commands[id].kind == Update
    requires id in states[n].db.commands && !states[n].db.commands[id].resolved
    requires forall i :: m <= i < n ==> !WritesBackUpdate(states[i].db, events[i], states[m].db.commands[id].client)
    requires var c := states[m].db.commands[id];
      realQty.Some? ==> realQty.value == if effective then c.qty else QtyAt(states[m].db, c.client)
    ensures Sound(states[n].db, id, QtyAt(states[m].db, states[m].db.commands[id].client), effective, realQty)
  {
    InFlightBaseline(states, events, limit, id, m, n);
    ShapeOverRun(states, events, limit, n);
    InFlightScope(states[n], id);
    QueryAt(states[n].db, id, QtyAt(states[m].db, states[m].db.commands[id].client), effective, realQty);
  }

  lemma InFlightScope(s: State, id: CmdId)
    requires Shape(s) && id in s.db.commands && s.db.commands[id].kind == Update
    ensures var c := s.db.commands[id];
      && c.ordno.Some? && UniqueClients(s.db.orders) && Known(s.db, c.client)
      && FindOrdno(s.db.orders, c.account, c.mode, c.ordno.value) == FindClient(s.db.orders, c.client)
  {
    var c := s.db.commands[id];
    assert Scoped(s, id);
    FoundByOrdno(s.db.orders, c.client, c.ordno.value);
  }

  // ---- The late write-back ----

  /** With any quantity on the order, the answer to the broker's quantity is sound exactly when the order
      still stands on the same side of the target as at the baseline, and on the baseline itself if the
      update did not take effect. */
  lemma BaselineIsExact(db: Db, id: CmdId, before: int, effective: bool)
    requires id in db.commands && !db.commands[id].resolved && db.commands[id].ordno.Some?
    requires UniqueClients(db.orders) && Known(db, db.commands[id].client)
    requires var c := db.commands[id]; FindOrdno(db.orders, c.account, c.mode, c.ordno.value) == FindClient(db.orders, c.client)
    ensures var c := db.commands[id]; var now := OrderOf(db, c.client).qty;
      Sound(db, id, before, effective, Some(if effective then c.qty else before))
      <==> if effective then (c.qty == before <==> c.qty == now) else now == before
  {
    var c := db.commands[id];
    var i := FindClient(db.orders, c.client);
    UpdatedOrder(db.orders, i, UpdateAckOrder(db.orders[i], c.price, c.qty));
  }

  /** Two decreases are carried out, a change of price alone is left unknown, and then the first
      decrease's route writes back. */
  function Fooled(): seq<Event> {
    [PlaceDecided(Lot(1, 5), 100, 0, false),
     AckArrives(100, 1, Ack(true, None, Some(7))),
     UpdateChecked(0, 1, 4, 100.0),
     UpdateInserted(0, 101, 0),
     AckArrives(101, 1, Ack(true, None, None)),
     UpdateChecked(0, 1, 3, 100.0),
     UpdateInserted(0, 102, 0),
     AckArrives(102, 1, Ack(true, None, None)),
     UpdateChecked(0, 1, 3, 101.0),
     UpdateInserted(0, 103, 0),
     AckArrives(103, 1, Ack(false, Some(Timeout), None)),
     RouteWritesBack(101),
     QuantityQueried(103, Some(3))]
  }

  function FooledRow(): Command {
    NewCommand(Update, LeakOrder(3), Some(UpdateRes(1, 3, 101.0)), 3, Some(101.0), 0)
  }

  function Shrunk(commands: map<CmdId, Command>, told: map<CmdId, Option<Ordno>>, qty: int, attempts: map<nat, Attempt>): State {
    State(Db(commands, [LeakOrder(qty)], [Held(PlaceRes(1), 5, Confirmed)]), attempts, told)
  }

  function FooledStates(): seq<State> {
    var done, four, three := LeakDone(), LeakRow(4, true, Some(OutOk)), LeakRow(3, true, Some(OutOk));
    var first := map[100 := done, 101 := four];
    var both := first[102 := three];
    var unsure := FooledRow().(acked := true, outcome := Some(OutUnknown));
    var placed := map[100 := Some(7)];
    var once := placed[101 := None];
    var twice := once[102 := None];
    [Start,
     State(Db(map[100 := LeakPlaced(1)], [Lot(1, 5)], [Held(PlaceRes(1), 5, Reserved)]), map[], map[]),
     Shrunk(map[100 := done], placed, 5, map[]),
     Shrunk(map[100 := done], placed, 5, map[0 := Attempt(1, 4, 100.0)]),
     Shrunk(map[100 := done, 101 := LeakRow(4, false, None)], placed, 5, map[]),
     Shrunk(first, once, 4, map[]),
     Shrunk(first, once, 4, map[0 := Attempt(1, 3, 100.0)]),
     Shrunk(first[102 := LeakRow(3, false, None)], once, 4, map[]),
     Shrunk(both, twice, 3, map[]),
     Shrunk(both, twice, 3, map[0 := Attempt(1, 3, 101.0)]),
     Shrunk(both[103 := FooledRow()], twice, 3, map[]),
     Shrunk(both[103 := unsure], twice, 3, map[]),
     Shrunk(both[103 := unsure], twice, 4, map[]),
     State(Db(both[103 := unsure.(outcome := Some(OutOk), via := Some(ByQuery), resolved := true)],
              [LeakOrder(3).(price := 101.0)], [Held(PlaceRes(1), 5, Confirmed)]), map[], twice)]
  }

  lemma FooledPlaces()
    ensures Linked(FooledStates(), Fooled(), 10, 0)
  {
  }

  lemma FooledPlaced()
    ensures Linked(FooledStates(), Fooled(), 10, 1)
  {
  }

  lemma FooledFirst()
    ensures Linked(FooledStates(), Fooled(), 10, 2)
  {
  }

  lemma FooledFirstInserted()
    ensures Linked(FooledStates(), Fooled(), 10, 3)
  {
  }

  lemma FooledFirstOk()
    ensures Linked(FooledStates(), Fooled(), 10, 4)
  {
  }

  lemma FooledSecondChecked()
    ensures Linked(FooledStates(), Fooled(), 10, 5)
  {
  }

  lemma FooledSecond()
    ensures Linked(FooledStates(), Fooled(), 10, 6)
  {
  }

  lemma FooledSecondOk()
    ensures Linked(FooledStates(), Fooled(), 10, 7)
  {
  }

  lemma FooledThird()
    ensures Linked(FooledStates(), Fooled(), 10, 8) && Linked(FooledStates(), Fooled(), 10, 9)
  {
  }

  lemma FooledUnsure()
    ensures Linked(FooledStates(), Fooled(), 10, 10)
  {
  }

  lemma FooledLast()
    ensures Linked(FooledStates(), Fooled(), 10, 11)
  {
  }

  lemma FooledAsked()
    ensures Linked(FooledStates(), Fooled(), 10, 12)
  {
  }

  lemma FooledGuarded(i: nat)
    requires i < 13
    ensures Guarded(FooledStates()[i], Fooled()[i])
  {
  }

  lemma FooledLinked(i: nat)
    requires i < 13
    ensures Linked(FooledStates(), Fooled(), 10, i)
  {
    if i == 0 { FooledPlaces(); }
    else if i == 1 { FooledPlaced(); }
    else if i == 2 { FooledFirst(); }
    else if i == 3 { FooledFirstInserted(); }
    else if i == 4 { FooledFirstOk(); }
    else if i == 5 { FooledSecondChecked(); }
    else { FooledGoesOn(i); }
  }

  lemma FooledGoesOn(i: nat)
    requires 6 <= i < 13
    ensures Linked(FooledStates(), Fooled(), 10, i)
  {
    if i == 6 { FooledSecond(); }
    else if i == 7 { FooledSecondOk(); }
    else if i < 10 { FooledThird(); }
    else if i == 10 { FooledUnsure(); }
    else if i == 11 { FooledLast(); }
    else { FooledAsked(); }
  }

  lemma FooledRuns()
    ensures Run(FooledStates(), Fooled(), 10)
  {
    forall i | 0 <= i < 13 ensures Linked(FooledStates(), Fooled(), 10, i) { FooledLinked(i); }
  }

  /** Without that premise the resolver is misled: a price change the broker never made is confirmed by a quantity
      it did not touch. It takes a route that still waits for its slot's lock while login replays have its update
      and a later one delivered and acknowledged. */
  lemma LateWriteBackFoolsResolver()
    ensures Run(FooledStates(), Fooled(), 10) && forall i :: 0 <= i < 13 ==> Guarded(FooledStates()[i], Fooled()[i])
    ensures WritesBackUpdate(FooledStates()[11].db, Fooled()[11], 1)
    ensures OrderOf(FooledStates()[10].db, 1).qty == 3 && !Sound(FooledStates()[12].db, 103, 3, false, Some(3))
  {
    FooledRuns();
    forall i | 0 <= i < 13 ensures Guarded(FooledStates()[i], Fooled()[i]) { FooledGuarded(i); }
    BaselineIsExact(FooledStates()[12].db, 103, 3, false);
  }
}
