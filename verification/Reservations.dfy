/** The exposure bound: quota reservations always cover what orders may execute, so the orders of
    one user, mode and trading day that have not failed never add up to more than the daily limit. */
module Reservations {
  import opened Common
  import opened Ledger
  import opened Server
  import opened Tables

  // ---- Invariant ----

  /** Statuses only a report about a numbered order can bring. */
  predicate Executed(s: Status) { s == PartFilled || s == Filled || s == Cancelled }

  ghost predicate OrderOk(db: Db, o: Order) {
    var row := LookupQuota(db.quotas, PlaceRes(o.client));
    && o.qty > 0
    && row.Some?
    && (row.value.state == Reserved ==> o.qty == row.value.qty && o.ordno == None)
    && (row.value.state == Confirmed ==> o.qty <= ConfirmedQty(db.quotas, o.client))
    && (row.value.state == Released ==> o.status == Failed && o.ordno == None)
    && (o.ordno == None ==> !Executed(o.status))
  }

  /** Confirming this row lifts its order's confirmed quota to the quantity it was reserved for. */
  ghost predicate QuotaOk(db: Db, q: Quota) {
    var o := LookupOrder(db.orders, q.id.client);
    && q.qty > 0
    && o.Some? && InScope(q, o.value.user, o.value.mode, o.value.day) && (q.id.UpdateRes? ==> o.value.ordno.Some?)
    && (q.id.UpdateRes? && q.state == Reserved ==> q.id.qty <= ConfirmedQty(db.quotas, q.id.client) + q.qty)
    && (q.id.UpdateRes? && q.state == Confirmed ==> q.id.qty <= ConfirmedQty(db.quotas, q.id.client))
  }

  ghost predicate StillReserved(db: Db, id: ResId) {
    var row := LookupQuota(db.quotas, id);
    row.Some? && row.value.state == Reserved
  }

  /** Carrying out this update leaves its order within confirmed quota. */
  ghost predicate UpdateCovered(db: Db, k: ClientId, qty: int, res: ResId) {
    qty <= ConfirmedQty(db.quotas, k) || StillReserved(db, res)
  }

  ghost predicate CommandOk(db: Db, c: Command) {
    var o := LookupOrder(db.orders, c.client);
    && o.Some? && o.value.account == c.account && o.value.mode == c.mode
    && match c.kind
       case Place =>
         var row := LookupQuota(db.quotas, PlaceRes(c.client));
         && c.reservation == Some(PlaceRes(c.client)) && row.Some?
         && (!c.resolved ==> row.value.state != Released && (c.acked || (o.value.ordno == None && o.value.status != Failed)))
         && (c.resolved && c.outcome != Some(OutError) ==> row.value.state == Confirmed)
       case Cancel => c.reservation == None && c.ordno.Some? && o.value.ordno == c.ordno
       case Update =>
         && c.ordno.Some? && o.value.ordno == c.ordno && c.qty > 0 && c.price.Some?
         && c.reservation == Some(UpdateRes(c.client, c.qty, c.price.value))
         && (!c.resolved ==> UpdateCovered(db, c.client, c.qty, c.reservation.value))
         && (c.resolved && c.outcome != Some(OutError) ==> c.qty <= ConfirmedQty(db.quotas, c.client))
  }

  ghost predicate AttemptOk(db: Db, t: Attempt) {
    var o := LookupOrder(db.orders, t.client);
    && o.Some? && o.value.ordno.Some? && t.qty > 0
    && (t.qty <= ConfirmedQty(db.quotas, t.client) || LookupQuota(db.quotas, UpdateRes(t.client, t.qty, t.price)).Some?)
  }

  ghost predicate WithinBudget(quotas: seq<Quota>, limit: int) {
    forall user, mode, day :: Used(quotas, user, mode, day) <= limit
  }

  ghost predicate Inv(s: State, limit: int) {
    var db := s.db;
    && 0 <= limit
    && UniqueClients(db.orders) && UniqueRes(db.quotas) && Positive(db.quotas) && OrdnosUnique(db.orders)
    && Flights(db.commands) && WithinBudget(db.quotas, limit)
    && OrdersOk(db) && QuotasOk(db) && CommandsOk(db) && AttemptsOk(s)
  }

  ghost predicate OrdersOk(db: Db) { forall i :: 0 <= i < |db.orders| ==> OrderOk(db, db.orders[i]) }
  ghost predicate QuotasOk(db: Db) { forall j :: 0 <= j < |db.quotas| ==> QuotaOk(db, db.quotas[j]) }
  ghost predicate CommandsOk(db: Db) { forall id :: id in db.commands ==> CommandOk(db, db.commands[id]) }
  ghost predicate AttemptsOk(s: State) { forall a :: a in s.attempts ==> AttemptOk(s.db, s.attempts[a]) }

  // ---- What carries over when tables only move forward ----

  predicate Forward(q: Quota, n: Quota) {
    q == n || (q.state == Reserved && n == q.(state := n.state))
  }

  ghost predicate OrdersForward(db: Db, next: Db) {
    forall k :: LookupOrder(db.orders, k).Some? ==>
      LookupOrder(next.orders, k).Some? && SameOrder(LookupOrder(db.orders, k).value, LookupOrder(next.orders, k).value)
  }

  ghost predicate QuotasForward(db: Db, next: Db) {
    && (forall k :: ConfirmedQty(db.quotas, k) <= ConfirmedQty(next.quotas, k))
    && (forall id :: LookupQuota(db.quotas, id).Some? ==>
          LookupQuota(next.quotas, id).Some? && Forward(LookupQuota(db.quotas, id).value, LookupQuota(next.quotas, id).value))
  }

  /** No unresolved command loses its reservation. */
  ghost predicate KeepsFor(db: Db, next: Db, c: Command) {
    !c.resolved ==>
      && (c.kind == Place ==> LookupQuota(next.quotas, PlaceRes(c.client)).Some?
                              && LookupQuota(next.quotas, PlaceRes(c.client)).value.state != Released)
      && (c.kind == Update && c.reservation.Some? ==> UpdateCovered(next, c.client, c.qty, c.reservation.value))
  }

  /** Until its placement is answered an order has no number and has not failed. */
  ghost predicate OrdnoFor(next: Db, c: Command) {
    c.kind == Place && LookupOrder(next.orders, c.client).Some? && !c.resolved && !c.acked ==>
      LookupOrder(next.orders, c.client).value.ordno == None && LookupOrder(next.orders, c.client).value.status != Failed
  }

  lemma CommandCarries(db: Db, next: Db, c: Command)
    requires CommandOk(db, c) && OrdersForward(db, next) && QuotasForward(db, next) && KeepsFor(db, next, c) && OrdnoFor(next, c)
    ensures CommandOk(next, c)
  {
  }

  lemma QuotaCarries(db: Db, next: Db, q: Quota)
    requires QuotaOk(db, q) && OrdersForward(db, next) && QuotasForward(db, next)
    ensures QuotaOk(next, q)
  {
  }

  lemma AttemptCarries(db: Db, next: Db, t: Attempt)
    requires AttemptOk(db, t) && OrdersForward(db, next) && QuotasForward(db, next)
    ensures AttemptOk(next, t)
  {
  }

  /** Rebuilds the invariant from its table-wide parts. */
  lemma Rebuild(s: State, next: State, limit: int)
    requires Inv(s, limit) && next.attempts == s.attempts && next.db.commands == s.db.commands
    requires OrdersForward(s.db, next.db) && QuotasForward(s.db, next.db)
    requires UniqueClients(next.db.orders) && UniqueRes(next.db.quotas) && Positive(next.db.quotas)
    requires OrdnosUnique(next.db.orders) && WithinBudget(next.db.quotas, limit)
    requires OrdersOk(next.db) && QuotasOk(next.db)
    requires forall id | id in s.db.commands :: KeepsFor(s.db, next.db, s.db.commands[id]) && OrdnoFor(next.db, s.db.commands[id])
    ensures Inv(next, limit)
  {
    forall id | id in next.db.commands ensures CommandOk(next.db, next.db.commands[id]) {
      assert CommandOk(s.db, s.db.commands[id]);
      assert KeepsFor(s.db, next.db, s.db.commands[id]) && OrdnoFor(next.db, s.db.commands[id]);
      CommandCarries(s.db, next.db, s.db.commands[id]);
    }
    forall a | a in next.attempts ensures AttemptOk(next.db, next.attempts[a]) {
      AttemptCarries(s.db, next.db, s.attempts[a]);
    }
  }

  lemma FoundByClient(orders: seq<Order>, i: nat)
    requires i < |orders| && UniqueClients(orders)
    ensures FindClient(orders, orders[i].client) == i
    ensures LookupOrder(orders, orders[i].client) == Some(orders[i])
  {
  }

  lemma FoundById(quotas: seq<Quota>, i: nat)
    requires i < |quotas| && UniqueRes(quotas)
    ensures FindQuota(quotas, quotas[i].id) == i
    ensures LookupQuota(quotas, quotas[i].id) == Some(quotas[i])
  {
  }

  // ---- The primitive writes keep the invariant ----

  /** Settling one reserved row: what it does to lookups and sums. */
  lemma Settled(db: Db, i: nat, state: QuotaState)
    requires UniqueRes(db.quotas) && Positive(db.quotas)
    requires i < |db.quotas| && db.quotas[i].state == Reserved && state != Reserved
    ensures var q := db.quotas[i].(state := state); var after := db.quotas[i := q];
      && Settle(db.quotas, q.id, state) == after
      && UniqueRes(after) && Positive(after) && QuotasForward(db, db.(quotas := after))
      && (forall id :: LookupQuota(after, id) == if id == q.id then Some(q) else LookupQuota(db.quotas, id))
      && (forall k :: ConfirmedQty(after, k) == ConfirmedQty(db.quotas, k) + if state == Confirmed && k == q.id.client then q.qty else 0)
      && (forall user, mode, day :: Used(after, user, mode, day) <= Used(db.quotas, user, mode, day))
  {
    var q := db.quotas[i].(state := state);
    var after := db.quotas[i := q];
    UpdatedQuota(db.quotas, i, q);
    FoundById(db.quotas, i);
    forall k
      ensures ConfirmedQty(after, k) == ConfirmedQty(db.quotas, k) + if state == Confirmed && k == q.id.client then q.qty else 0
    {
      SumsAfterUpdate(db.quotas, i, q, k, 0, Sim, 0);
    }
    forall user, mode, day ensures Used(after, user, mode, day) <= Used(db.quotas, user, mode, day) {
      SumsAfterUpdate(db.quotas, i, q, 0, user, mode, day);
    }
  }

  /** Every unresolved command naming the row is covered without it, and a placement row belongs
      to a failed order. */
  ghost predicate Releasable(db: Db, id: ResId) {
    && (forall cid | cid in db.commands && !db.commands[cid].resolved && db.commands[cid].reservation == Some(id) ::
          db.commands[cid].kind == Update && db.commands[cid].qty <= ConfirmedQty(db.quotas, db.commands[cid].client))
    && (id.PlaceRes? && LookupOrder(db.orders, id.client).Some? ==> LookupOrder(db.orders, id.client).value.status == Failed)
  }

  lemma SettledOrders(db: Db, i: nat, state: QuotaState)
    requires UniqueRes(db.quotas) && Positive(db.quotas) && UniqueClients(db.orders) && OrdersOk(db)
    requires i < |db.quotas| && db.quotas[i].state == Reserved && state != Reserved
    requires state == Released ==> Releasable(db, db.quotas[i].id)
    ensures OrdersOk(db.(quotas := db.quotas[i := db.quotas[i].(state := state)]))
  {
    Settled(db, i, state);
    var next := db.(quotas := db.quotas[i := db.quotas[i].(state := state)]);
    forall j | 0 <= j < |db.orders| ensures OrderOk(next, db.orders[j]) {
      var o := db.orders[j];
      assert OrderOk(db, o);
      ConfirmedWithinHeld(db.quotas, o.client);
      FoundByClient(db.orders, j);
      FoundById(db.quotas, i);
    }
  }

  lemma SettledQuotas(db: Db, i: nat, state: QuotaState)
    requires UniqueRes(db.quotas) && Positive(db.quotas) && QuotasOk(db)
    requires i < |db.quotas| && db.quotas[i].state == Reserved && state != Reserved
    ensures QuotasOk(db.(quotas := db.quotas[i := db.quotas[i].(state := state)]))
  {
    Settled(db, i, state);
    var next := db.(quotas := db.quotas[i := db.quotas[i].(state := state)]);
    forall j | 0 <= j < |next.quotas| ensures QuotaOk(next, next.quotas[j]) {
      assert QuotaOk(db, db.quotas[j]);
      QuotaCarries(db, next, db.quotas[j]);
    }
  }

  lemma SettledCommand(db: Db, i: nat, state: QuotaState, c: Command)
    requires UniqueRes(db.quotas) && Positive(db.quotas) && QuotasOk(db) && CommandOk(db, c)
    requires i < |db.quotas| && db.quotas[i].state == Reserved && state != Reserved
    requires state == Released ==>
               c.resolved || c.reservation != Some(db.quotas[i].id)
               || (c.kind == Update && c.qty <= ConfirmedQty(db.quotas, c.client))
    ensures KeepsFor(db, db.(quotas := db.quotas[i := db.quotas[i].(state := state)]), c)
  {
    Settled(db, i, state);
    SettledQuotas(db, i, state);
    var next := db.(quotas := db.quotas[i := db.quotas[i].(state := state)]);
    assert ConfirmedQty(db.quotas, c.client) <= ConfirmedQty(next.quotas, c.client);
    assert QuotaOk(next, next.quotas[i]);
  }

  lemma SettleKeeps(s: State, i: nat, state: QuotaState, limit: int)
    requires Inv(s, limit)
    requires i < |s.db.quotas| && s.db.quotas[i].state == Reserved && state != Reserved
    requires state == Released ==> Releasable(s.db, s.db.quotas[i].id)
    ensures Inv(s.(db := s.db.(quotas := s.db.quotas[i := s.db.quotas[i].(state := state)])), limit)
  {
    var db := s.db;
    var next := db.(quotas := db.quotas[i := db.quotas[i].(state := state)]);
    Settled(db, i, state);
    SettledOrders(db, i, state);
    SettledQuotas(db, i, state);
    forall cid | cid in db.commands
      ensures KeepsFor(db, next, db.commands[cid]) && OrdnoFor(next, db.commands[cid])
    {
      assert CommandOk(db, db.commands[cid]);
      SettledCommand(db, i, state, db.commands[cid]);
    }
    Rebuild(s, s.(db := next), limit);
  }

  /** Turning a reserved row into a confirmed one. */
  lemma ConfirmKeeps(s: State, id: ResId, limit: int)
    requires Inv(s, limit)
    ensures var quotas := Settle(s.db.quotas, id, Confirmed);
      && Inv(s.(db := s.db.(quotas := quotas)), limit)
      && QuotasForward(s.db, s.db.(quotas := quotas))
      && !StillReserved(s.db.(quotas := quotas), id)
  {
    var i := FindQuota(s.db.quotas, id);
    if i < |s.db.quotas| && s.db.quotas[i].state == Reserved {
      SettleKeeps(s, i, Confirmed, limit);
      Settled(s.db, i, Confirmed);
    }
  }

  lemma ReleaseKeeps(s: State, id: ResId, limit: int)
    requires Inv(s, limit) && Releasable(s.db, id)
    ensures Inv(s.(db := s.db.(quotas := Settle(s.db.quotas, id, Released))), limit)
  {
    var i := FindQuota(s.db.quotas, id);
    if i < |s.db.quotas| && s.db.quotas[i].state == Reserved {
      SettleKeeps(s, i, Released, limit);
    }
  }

  ghost predicate PlacementsAnswered(db: Db, k: ClientId) {
    forall id | id in db.commands && db.commands[id].kind == Place && db.commands[id].client == k ::
      db.commands[id].resolved || db.commands[id].acked
  }

  /** Rewriting one order with values the invariant allows. */
  lemma OrderKeeps(s: State, i: nat, n: Order, limit: int)
    requires Inv(s, limit) && i < |s.db.orders|
    requires SameOrder(s.db.orders[i], n) && OrderOk(s.db, n)
    requires n.ordno != s.db.orders[i].ordno ==> !OrdnoTaken(s.db.orders, n.client, n.ordno) && PlacementsAnswered(s.db, n.client)
    requires n.status == Failed && n.ordno == None ==> PlacementsAnswered(s.db, n.client)
    ensures Inv(s.(db := s.db.(orders := s.db.orders[i := n])), limit)
  {
    var db := s.db;
    UpdatedOrder(db.orders, i, n);
    FoundByClient(db.orders, i);
    var next := db.(orders := db.orders[i := n]);
    assert OrdersForward(db, next);
    OrdnosStayUnique(db.orders, i, n);
    forall j | 0 <= j < |db.quotas| ensures QuotaOk(next, db.quotas[j]) { QuotaCarries(db, next, db.quotas[j]); }
    forall j | 0 <= j < |next.orders| ensures OrderOk(next, next.orders[j]) { assert OrderOk(db, db.orders[j]); }
    forall cid | cid in db.commands
      ensures KeepsFor(db, next, db.commands[cid]) && OrdnoFor(next, db.commands[cid])
    {
      assert CommandOk(db, db.commands[cid]);
    }
    Rebuild(s, s.(db := next), limit);
  }

  /** Rewriting or adding one command row with values the invariant allows. */
  lemma CommandKeeps(s: State, id: CmdId, c: Command, limit: int)
    requires Inv(s, limit) && CommandOk(s.db, c)
    requires id in s.db.commands ==>
               s.db.commands[id].client == c.client && s.db.commands[id].kind == c.kind
               && (s.db.commands[id].resolved ==> c.resolved)
    requires id !in s.db.commands ==> Flights(s.db.commands[id := c])
    ensures Inv(s.(db := s.db.(commands := s.db.commands[id := c])), limit)
  {
    var next := s.db.(commands := s.db.commands[id := c]);
    forall cid | cid in next.commands ensures CommandOk(next, next.commands[cid]) {
      assert CommandOk(s.db, next.commands[cid]);
    }
    forall j | 0 <= j < |s.db.orders| ensures OrderOk(next, s.db.orders[j]) { assert OrderOk(s.db, s.db.orders[j]); }
    forall j | 0 <= j < |s.db.quotas| ensures QuotaOk(next, s.db.quotas[j]) { assert QuotaOk(s.db, s.db.quotas[j]); }
    forall a | a in s.attempts ensures AttemptOk(next, s.attempts[a]) { assert AttemptOk(s.db, s.attempts[a]); }
  }

  /** Adding a freshly reserved row within the limit. */
  lemma Appended(db: Db, q: Quota)
    requires UniqueRes(db.quotas) && Positive(db.quotas) && LookupQuota(db.quotas, q.id) == None && q.qty > 0 && q.state == Reserved
    ensures var after := db.quotas + [q];
      && UniqueRes(after) && Positive(after) && QuotasForward(db, db.(quotas := after))
      && (forall id :: LookupQuota(after, id) == if id == q.id then Some(q) else LookupQuota(db.quotas, id))
      && (forall k :: ConfirmedQty(after, k) == ConfirmedQty(db.quotas, k))
  {
    AppendedQuota(db.quotas, q);
    forall k ensures ConfirmedQty(db.quotas + [q], k) == ConfirmedQty(db.quotas, k) {
      SumsAfterAppend(db.quotas, q, k, 0, Sim, 0);
    }
  }

  lemma BudgetAfterReserve(quotas: seq<Quota>, q: Quota, limit: int)
    requires WithinBudget(quotas, limit) && Used(quotas, q.user, q.mode, q.day) + q.qty <= limit
    ensures WithinBudget(quotas + [q], limit)
  {
    forall user, mode, day ensures Used(quotas + [q], user, mode, day) <= limit {
      SumsAfterAppend(quotas, q, 0, user, mode, day);
    }
  }

  // ---- Every event keeps the invariant ----

  /** A new order and its reservation beside the old ones. */
  lemma PlaceAdded(db: Db, o: Order, q: Quota)
    requires UniqueClients(db.orders) && UniqueRes(db.quotas) && Positive(db.quotas) && OrdnosUnique(db.orders)
    requires OrdersOk(db) && QuotasOk(db) && LookupOrder(db.orders, o.client) == None && LookupQuota(db.quotas, q.id) == None
    requires o.status == Pending && o.ordno == None && o.qty > 0
    requires q == Quota(PlaceRes(o.client), o.user, o.mode, o.day, o.qty, Reserved)
    ensures var next := db.(orders := db.orders + [o], quotas := db.quotas + [q]);
      OrdersOk(next) && QuotasOk(next) && OrdnosUnique(next.orders)
  {
    var next := db.(orders := db.orders + [o], quotas := db.quotas + [q]);
    Appended(db, q);
    AppendedOrder(db.orders, o);
    forall j | 0 <= j < |next.orders| ensures OrderOk(next, next.orders[j]) {
      if j < |db.orders| {
        assert OrderOk(db, db.orders[j]);
        FoundByClient(db.orders, j);
      }
    }
    assert OrdersForward(db, next);
    forall j | 0 <= j < |next.quotas| ensures QuotaOk(next, next.quotas[j]) {
      if j < |db.quotas| { QuotaCarries(db, next, db.quotas[j]); }
    }
  }

  lemma PlaceChecked(s: State, o: Order, limit: int)
    requires Inv(s, limit) && o.status == Pending && o.ordno == None && o.qty > 0 && !Known(s.db, o.client)
    ensures Inv(s.(db := CheckPlace(s.db, o, limit)), limit)
    ensures CheckPlace(s.db, o, limit) != s.db ==>
              && CheckPlace(s.db, o, limit).commands == s.db.commands
              && LookupOrder(CheckPlace(s.db, o, limit).orders, o.client) == Some(o)
              && StillReserved(CheckPlace(s.db, o, limit), PlaceRes(o.client))
    ensures Known(CheckPlace(s.db, o, limit), o.client) ==> CheckPlace(s.db, o, limit) != s.db
  {
    var db := s.db;
    forall j | 0 <= j < |db.quotas| ensures db.quotas[j].id.client != o.client { assert QuotaOk(db, db.quotas[j]); }
    if Used(db.quotas, o.user, o.mode, o.day) + o.qty <= limit {
      var q := Quota(PlaceRes(o.client), o.user, o.mode, o.day, o.qty, Reserved);
      assert CheckPlace(db, o, limit) == db.(orders := db.orders + [o], quotas := db.quotas + [q]);
      PlaceReserved(s, o, q, limit);
    }
  }

  lemma PlaceReserved(s: State, o: Order, q: Quota, limit: int)
    requires Inv(s, limit) && o.status == Pending && o.ordno == None && o.qty > 0 && LookupOrder(s.db.orders, o.client) == None
    requires q == Quota(PlaceRes(o.client), o.user, o.mode, o.day, o.qty, Reserved) && LookupQuota(s.db.quotas, q.id) == None
    requires Used(s.db.quotas, o.user, o.mode, o.day) + o.qty <= limit
    ensures var next := s.db.(orders := s.db.orders + [o], quotas := s.db.quotas + [q]);
      Inv(s.(db := next), limit) && LookupOrder(next.orders, o.client) == Some(o) && StillReserved(next, q.id)
  {
    var db := s.db;
    var next := db.(orders := db.orders + [o], quotas := db.quotas + [q]);
    Appended(db, q);
    AppendedOrder(db.orders, o);
    BudgetAfterReserve(db.quotas, q, limit);
    assert OrdersForward(db, next);
    PlaceAdded(db, o, q);
    forall cid | cid in db.commands
      ensures KeepsFor(db, next, db.commands[cid]) && OrdnoFor(next, db.commands[cid])
    {
      assert CommandOk(db, db.commands[cid]);
    }
    Rebuild(s, s.(db := next), limit);
  }

  lemma InsertedPlain(s: State, id: CmdId, kind: Kind, k: ClientId, expires: int, limit: int)
    requires Inv(s, limit) && id !in s.db.commands && kind != Update && Known(s.db, k)
    requires kind == Cancel ==> OrderOf(s.db, k).ordno.Some?
    requires kind == Place ==>
               && StillReserved(s.db, PlaceRes(k)) && OrderOf(s.db, k).ordno == None && OrderOf(s.db, k).status != Failed
               && forall cid | cid in s.db.commands :: s.db.commands[cid].client != k
    ensures Inv(s.(db := InsertPlain(s.db, id, kind, k, expires)), limit)
  {
    var o := OrderOf(s.db, k);
    var c := NewCommand(kind, o, if kind == Place then Some(PlaceRes(k)) else None, o.qty, Some(o.price), expires);
    assert CommandOk(s.db, c);
    CommandKeeps(s, id, c, limit);
  }

  lemma ReserveAdded(db: Db, q: Quota)
    requires UniqueRes(db.quotas) && Positive(db.quotas) && OrdersOk(db) && QuotasOk(db) && QuotaOk(db, q)
    requires q.state == Reserved && q.id.UpdateRes? && LookupQuota(db.quotas, q.id) == None
    ensures var after := db.(quotas := db.quotas + [q]); OrdersOk(after) && QuotasOk(after)
  {
    var after := db.(quotas := db.quotas + [q]);
    Appended(db, q);
    forall j | 0 <= j < |after.quotas| ensures QuotaOk(after, after.quotas[j]) {
      if j < |db.quotas| { assert QuotaOk(db, db.quotas[j]); }
      QuotaCarries(db, after, after.quotas[j]);
    }
    forall j | 0 <= j < |after.orders| ensures OrderOk(after, after.orders[j]) { assert OrderOk(db, db.orders[j]); }
  }

  /** Adding a freshly reserved row for an update of a known order. */
  lemma ReserveKeeps(s: State, q: Quota, limit: int)
    requires Inv(s, limit) && QuotaOk(s.db, q) && q.state == Reserved && q.id.UpdateRes?
    requires LookupQuota(s.db.quotas, q.id) == None && Used(s.db.quotas, q.user, q.mode, q.day) + q.qty <= limit
    ensures Inv(s.(db := s.db.(quotas := s.db.quotas + [q])), limit)
  {
    var db := s.db;
    var after := db.(quotas := db.quotas + [q]);
    Appended(db, q);
    BudgetAfterReserve(db.quotas, q, limit);
    ReserveAdded(db, q);
    forall cid | cid in db.commands
      ensures KeepsFor(db, after, db.commands[cid]) && OrdnoFor(after, db.commands[cid])
    {
      assert CommandOk(db, db.commands[cid]);
    }
    Rebuild(s, s.(db := after), limit);
  }

  /** An order with a broker number is within its confirmed quota. */
  lemma NumberedWithinConfirmed(db: Db, k: ClientId)
    requires OrdersOk(db) && Known(db, k) && OrderOf(db, k).ordno.Some?
    ensures 0 < OrderOf(db, k).qty <= ConfirmedQty(db.quotas, k)
  {
  }

  lemma UpdateCheckKeeps(s: State, a: nat, k: ClientId, qty: int, price: real, limit: int)
    requires Inv(s, limit) && a !in s.attempts
    ensures Inv(Apply(s, UpdateChecked(a, k, qty, price), limit), limit)
  {
    var db := s.db;
    var (after, ok) := CheckUpdate(db, k, qty, price, limit);
    if ok {
      UpdateAllowed(s, k, qty, price, limit);
      AttemptAdded(s.(db := after), a, Attempt(k, qty, price), limit);
    }
  }

  /** An allowed update leaves its attempt either within confirmed quota or with a reservation of its own. */
  lemma UpdateAllowed(s: State, k: ClientId, qty: int, price: real, limit: int)
    requires Inv(s, limit) && CheckUpdate(s.db, k, qty, price, limit).1
    ensures var after := CheckUpdate(s.db, k, qty, price, limit).0;
      Inv(s.(db := after), limit) && AttemptOk(after, Attempt(k, qty, price))
  {
    var db := s.db;
    AllowedShape(db, k, qty, price, limit);
    NumberedWithinConfirmed(db, k);
    if CheckUpdate(db, k, qty, price, limit).0 != db {
      var q := Increase(db, k, qty, price);
      assert QuotaOk(db, q);
      ReserveKeeps(s, q, limit);
      Appended(db, q);
    }
  }

  function Increase(db: Db, k: ClientId, qty: int, price: real): Quota
    requires Known(db, k)
  {
    var o := OrderOf(db, k);
    Quota(UpdateRes(k, qty, price), o.user, o.mode, o.day, qty - o.qty, Reserved)
  }

  /** An allowed update needs nothing, finds its reservation, or adds it within the limit. */
  lemma AllowedShape(db: Db, k: ClientId, qty: int, price: real, limit: int)
    requires CheckUpdate(db, k, qty, price, limit).1
    ensures Known(db, k) && OrderOf(db, k).ordno.Some? && qty > 0
    ensures var after := CheckUpdate(db, k, qty, price, limit).0; var q := Increase(db, k, qty, price);
      if after == db then qty <= OrderOf(db, k).qty || LookupQuota(db.quotas, q.id).Some?
      else
        && after == db.(quotas := db.quotas + [q]) && LookupQuota(db.quotas, q.id) == None && q.qty > 0
        && Used(db.quotas, q.user, q.mode, q.day) + q.qty <= limit
  {
  }

  lemma AttemptAdded(s: State, a: nat, t: Attempt, limit: int)
    requires Inv(s, limit) && AttemptOk(s.db, t)
    ensures Inv(s.(attempts := s.attempts[a := t]), limit)
  {
  }

  lemma AttemptDropped(s: State, a: nat, limit: int)
    requires Inv(s, limit)
    ensures Inv(s.(attempts := s.attempts - {a}), limit)
  {
  }

  ghost predicate NotGivenBack(db: Db, id: ResId) {
    var row := LookupQuota(db.quotas, id);
    row.Some? && row.value.state != Released
  }

  /** The reservation an attempt relies on was not given back between its check and its insert. */
  ghost predicate InsertGuard(db: Db, t: Attempt) {
    t.qty <= ConfirmedQty(db.quotas, t.client) || NotGivenBack(db, UpdateRes(t.client, t.qty, t.price))
  }

  /** Confirming an update's row covers the update exactly when it was covered before or the row was not given back. */
  lemma SettleCovers(db: Db, res: ResId)
    requires UniqueRes(db.quotas) && Positive(db.quotas) && QuotasOk(db) && res.UpdateRes?
    ensures res.qty <= ConfirmedQty(Settle(db.quotas, res, Confirmed), res.client)
       <==> res.qty <= ConfirmedQty(db.quotas, res.client) || NotGivenBack(db, res)
  {
    var i := FindQuota(db.quotas, res);
    if i < |db.quotas| {
      assert QuotaOk(db, db.quotas[i]);
      if db.quotas[i].state == Reserved { Settled(db, i, Confirmed); }
    }
  }

  /** With a confirmed row, or a reserved one, the update is covered. */
  lemma GuardCovers(s: State, t: Attempt, limit: int)
    requires Inv(s, limit) && InsertGuard(s.db, t)
    ensures UpdateCovered(s.db, t.client, t.qty, UpdateRes(t.client, t.qty, t.price))
  {
  }

  /** A refused insert may give back its own reservation: the slot's holder is not using it. */
  lemma CollisionKeeps(s: State, k: ClientId, res: ResId, limit: int)
    requires Inv(s, limit) && res.UpdateRes? && res.client == k && !WinnerReserved(s.db.commands, k, res)
    ensures Inv(s.(db := s.db.(quotas := Settle(s.db.quotas, res, Released))), limit)
  {
    var commands := s.db.commands;
    forall cid | cid in commands && !commands[cid].resolved ensures commands[cid].reservation != Some(res) {
      assert CommandOk(s.db, commands[cid]);
    }
    ReleaseKeeps(s, res, limit);
  }

  lemma InsertKeeps(s: State, t: Attempt, id: CmdId, expires: int, limit: int)
    requires Inv(s, limit) && AttemptOk(s.db, t) && id !in s.db.commands
    requires !UpdateUnresolved(s.db.commands, t.client) && InsertGuard(s.db, t)
    ensures Inv(s.(db := InsertUpdate(s.db, id, t.client, t.qty, t.price, expires).0), limit)
  {
    var res := UpdateRes(t.client, t.qty, t.price);
    GuardCovers(s, t, limit);
    var c := NewCommand(Update, OrderOf(s.db, t.client), Some(res), t.qty, Some(t.price), expires);
    assert CommandOk(s.db, c);
    var commands := s.db.commands;
    forall cid | cid in commands && commands[cid].kind == Update && commands[cid].client == t.client
      ensures commands[cid].resolved
    {
    }
    CommandKeeps(s, id, c, limit);
  }

  lemma AttemptLands(s: State, t: Attempt, id: CmdId, expires: int, limit: int)
    requires Inv(s, limit) && AttemptOk(s.db, t) && id !in s.db.commands
    requires !UpdateUnresolved(s.db.commands, t.client) ==> InsertGuard(s.db, t)
    ensures Inv(s.(db := InsertUpdate(s.db, id, t.client, t.qty, t.price, expires).0), limit)
  {
    var res := UpdateRes(t.client, t.qty, t.price);
    if !UpdateUnresolved(s.db.commands, t.client) {
      InsertKeeps(s, t, id, expires, limit);
    } else if !WinnerReserved(s.db.commands, t.client, res) {
      CollisionKeeps(s, t.client, res, limit);
    }
  }

  lemma UpdateInsertKeeps(s: State, a: nat, id: CmdId, expires: int, limit: int)
    requires Inv(s, limit) && a in s.attempts && id !in s.db.commands
    requires !UpdateUnresolved(s.db.commands, s.attempts[a].client) ==> InsertGuard(s.db, s.attempts[a])
    ensures Inv(Apply(s, UpdateInserted(a, id, expires), limit), limit)
  {
    var t := s.attempts[a];
    assert AttemptOk(s.db, t);
    AttemptLands(s, t, id, expires, limit);
    AttemptDropped(s.(db := InsertUpdate(s.db, id, t.client, t.qty, t.price, expires).0), a, limit);
    InsertShape(s, a, id, expires, limit);
  }

  lemma InsertShape(s: State, a: nat, id: CmdId, expires: int, limit: int)
    requires a in s.attempts && id !in s.db.commands
    ensures var t := s.attempts[a]; var mid := s.(db := InsertUpdate(s.db, id, t.client, t.qty, t.price, expires).0);
      Apply(s, UpdateInserted(a, id, expires), limit) == mid.(attempts := mid.attempts - {a})
  {
  }

  /** Rewriting one command's bookkeeping without resolving it. */
  lemma NotedKeeps(s: State, id: CmdId, c: Command, limit: int)
    requires Inv(s, limit) && id in s.db.commands
    requires c == s.db.commands[id].(acked := c.acked, timedOut := c.timedOut, outcome := c.outcome)
    requires (c.resolved ==> c.outcome == s.db.commands[id].outcome) && (s.db.commands[id].acked ==> c.acked)
    ensures Inv(s.(db := s.db.(commands := s.db.commands[id := c])), limit)
  {
    assert CommandOk(s.db, s.db.commands[id]);
    assert CommandOk(s.db, c);
    CommandKeeps(s, id, c, limit);
  }

  /** Resolving an unresolved command; anything but an error needs its quota in place. */
  lemma ResolveKeeps(s: State, id: CmdId, outcome: Outcome, via: Via, resultOrdno: Option<Ordno>, limit: int)
    requires Inv(s, limit)
    requires id in s.db.commands && !s.db.commands[id].resolved && outcome != OutError ==>
               var c := s.db.commands[id];
               && (c.kind == Update ==> c.qty <= ConfirmedQty(s.db.quotas, c.client))
               && (c.kind == Place ==> !StillReserved(s.db, PlaceRes(c.client)))
    ensures Inv(s.(db := s.db.(commands := CasResolve(s.db.commands, id, outcome, via, resultOrdno).0)), limit)
  {
    if id in s.db.commands && !s.db.commands[id].resolved {
      var c := s.db.commands[id];
      assert CommandOk(s.db, c);
      var n := c.(outcome := Some(outcome), via := Some(via), resolved := true, resultOrdno := resultOrdno);
      assert CommandOk(s.db, n);
      CommandKeeps(s, id, n, limit);
    }
  }

  lemma MarkKeeps(s: State, i: nat, next: Status, limit: int)
    requires Inv(s, limit) && i < |s.db.orders|
    requires s.db.orders[i].ordno.Some? || !Executed(next)
    requires s.db.orders[i].ordno == None && next == Failed ==> PlacementsAnswered(s.db, s.db.orders[i].client)
    ensures Inv(s.(db := s.db.(orders := s.db.orders[i := MarkStatus(s.db.orders[i], next)])), limit)
  {
    assert OrderOk(s.db, s.db.orders[i]);
    assert OrderOk(s.db, MarkStatus(s.db.orders[i], next));
    OrderKeeps(s, i, MarkStatus(s.db.orders[i], next), limit);
  }

  lemma PlaceFailedKeeps(s: State, k: ClientId, status: Status, limit: int)
    requires Inv(s, limit) && (status == Failed || status == Unknown)
    requires status == Failed ==>
               forall cid | cid in s.db.commands && s.db.commands[cid].reservation == Some(PlaceRes(k)) :: s.db.commands[cid].resolved
    ensures Inv(s.(db := PlaceFailed(s.db, k, Some(PlaceRes(k)), status)), limit)
  {
    var i := FindClient(s.db.orders, k);
    if i < |s.db.orders| {
      if status == Failed { AllAnswered(s, k, limit); }
      MarkKeeps(s, i, status, limit);
      if status == Failed && StillReserved(s.db, PlaceRes(k)) { FailedReleases(s, k, limit); }
    }
  }

  lemma AllAnswered(s: State, k: ClientId, limit: int)
    requires Inv(s, limit)
    requires forall cid | cid in s.db.commands && s.db.commands[cid].reservation == Some(PlaceRes(k)) :: s.db.commands[cid].resolved
    ensures PlacementsAnswered(s.db, k)
  {
    forall cid | cid in s.db.commands && s.db.commands[cid].kind == Place && s.db.commands[cid].client == k
      ensures s.db.commands[cid].resolved
    {
      assert CommandOk(s.db, s.db.commands[cid]);
    }
  }

  /** A failed placement's own reservation may be given back. */
  lemma FailedReleases(s: State, k: ClientId, limit: int)
    requires Inv(s, limit) && Known(s.db, k) && StillReserved(s.db, PlaceRes(k))
    requires forall cid | cid in s.db.commands && s.db.commands[cid].reservation == Some(PlaceRes(k)) :: s.db.commands[cid].resolved
    requires Inv(s.(db := s.db.(orders := s.db.orders[FindClient(s.db.orders, k) := MarkStatus(OrderOf(s.db, k), Failed)])), limit)
    ensures Inv(s.(db := PlaceFailed(s.db, k, Some(PlaceRes(k)), Failed)), limit)
  {
    var i := FindClient(s.db.orders, k);
    var mid := s.(db := s.db.(orders := s.db.orders[i := MarkStatus(s.db.orders[i], Failed)]));
    assert OrderOk(s.db, s.db.orders[i]);
    UpdatedOrder(s.db.orders, i, mid.db.orders[i]);
    ReleaseKeeps(mid, PlaceRes(k), limit);
  }

  lemma UpdateAckKeeps(s: State, i: nat, price: Option<real>, qty: int, limit: int)
    requires Inv(s, limit) && i < |s.db.orders| && s.db.orders[i].ordno.Some?
    requires 0 < qty <= ConfirmedQty(s.db.quotas, s.db.orders[i].client)
    ensures Inv(s.(db := s.db.(orders := s.db.orders[i := UpdateAckOrder(s.db.orders[i], price, qty)])), limit)
  {
    assert OrderOk(s.db, s.db.orders[i]);
    var n := UpdateAckOrder(s.db.orders[i], price, qty);
    assert OrderOk(s.db, n);
    OrderKeeps(s, i, n, limit);
  }
}
