/** Lookups in the order and quota tables, and the sums the exposure bound is about. */
module Tables {
  import opened Common
  import opened Ledger

  ghost predicate UniqueClients(orders: seq<Order>) {
    forall i, j :: 0 <= i < j < |orders| ==> orders[i].client != orders[j].client
  }

  ghost predicate UniqueRes(quotas: seq<Quota>) {
    forall i, j :: 0 <= i < j < |quotas| ==> quotas[i].id != quotas[j].id
  }

  function LookupOrder(orders: seq<Order>, k: ClientId): Option<Order> {
    var i := FindClient(orders, k);
    if i < |orders| then Some(orders[i]) else None
  }

  function LookupQuota(quotas: seq<Quota>, id: ResId): Option<Quota> {
    var i := FindQuota(quotas, id);
    if i < |quotas| then Some(quotas[i]) else None
  }

  lemma UpdatedOrder(orders: seq<Order>, i: nat, o: Order)
    requires i < |orders| && orders[i].client == o.client && UniqueClients(orders)
    ensures UniqueClients(orders[i := o])
    ensures forall k :: LookupOrder(orders[i := o], k) == if k == o.client then Some(o) else LookupOrder(orders, k)
    ensures LookupOrder(orders, o.client) == Some(orders[i])
  {
    var after := orders[i := o];
    assert forall j :: 0 <= j < |orders| ==> after[j].client == orders[j].client;
    forall k
      ensures FindClient(after, k) == FindClient(orders, k)
      ensures LookupOrder(after, k) == if k == o.client then Some(o) else LookupOrder(orders, k)
    {
      var a, b := FindClient(after, k), FindClient(orders, k);
      assert a == b;
    }
  }

  lemma AppendedOrder(orders: seq<Order>, o: Order)
    requires UniqueClients(orders) && LookupOrder(orders, o.client) == None
    ensures UniqueClients(orders + [o])
    ensures forall k :: LookupOrder(orders + [o], k) == if k == o.client then Some(o) else LookupOrder(orders, k)
  {
    var after := orders + [o];
    assert forall j :: 0 <= j < |orders| ==> orders[j].client != o.client;
    forall k
      ensures LookupOrder(after, k) == if k == o.client then Some(o) else LookupOrder(orders, k)
    {
      var a, b := FindClient(after, k), FindClient(orders, k);
      if a < |orders| { assert after[a] == orders[a]; }
      if b < |orders| { assert after[b] == orders[b]; }
      if k == o.client { assert after[|orders|].client == k; }
    }
  }

  lemma UpdatedQuota(quotas: seq<Quota>, i: nat, q: Quota)
    requires i < |quotas| && quotas[i].id == q.id && UniqueRes(quotas)
    ensures UniqueRes(quotas[i := q])
    ensures forall id :: LookupQuota(quotas[i := q], id) == if id == q.id then Some(q) else LookupQuota(quotas, id)
  {
    var after := quotas[i := q];
    assert forall j :: 0 <= j < |quotas| ==> after[j].id == quotas[j].id;
    forall id
      ensures LookupQuota(after, id) == if id == q.id then Some(q) else LookupQuota(quotas, id)
    {
      var a, b := FindQuota(after, id), FindQuota(quotas, id);
      assert a == b;
    }
  }

  lemma AppendedQuota(quotas: seq<Quota>, q: Quota)
    requires UniqueRes(quotas) && LookupQuota(quotas, q.id) == None
    ensures UniqueRes(quotas + [q])
    ensures forall id :: LookupQuota(quotas + [q], id) == if id == q.id then Some(q) else LookupQuota(quotas, id)
  {
    var after := quotas + [q];
    assert forall j :: 0 <= j < |quotas| ==> quotas[j].id != q.id;
    forall id
      ensures LookupQuota(after, id) == if id == q.id then Some(q) else LookupQuota(quotas, id)
    {
      var a, b := FindQuota(after, id), FindQuota(quotas, id);
      if a < |quotas| { assert after[a] == quotas[a]; }
      if b < |quotas| { assert after[b] == quotas[b]; }
      if id == q.id { assert after[|quotas|].id == id; }
    }
  }

  /** Confirmed quota of one order. */
  function ConfirmedQty(quotas: seq<Quota>, k: ClientId): int {
    if quotas == [] then 0
    else (if quotas[0].id.client == k && quotas[0].state == Confirmed then quotas[0].qty else 0)
         + ConfirmedQty(quotas[1..], k)
  }

  /** Reserved or confirmed quota of one order. */
  function HeldQty(quotas: seq<Quota>, k: ClientId): int {
    if quotas == [] then 0
    else (if quotas[0].id.client == k && Active(quotas[0].state) then quotas[0].qty else 0)
         + HeldQty(quotas[1..], k)
  }

  function ConfirmedShare(q: Quota, k: ClientId): int {
    if q.id.client == k && q.state == Confirmed then q.qty else 0
  }

  function HeldShare(q: Quota, k: ClientId): int {
    if q.id.client == k && Active(q.state) then q.qty else 0
  }

  function UsedShare(q: Quota, user: UserId, mode: Mode, day: Day): int {
    if InScope(q, user, mode, day) && Active(q.state) then q.qty else 0
  }

  lemma {:induction false} SumsAfterUpdate(quotas: seq<Quota>, i: nat, q: Quota, k: ClientId, user: UserId, mode: Mode, day: Day)
    requires i < |quotas|
    ensures ConfirmedQty(quotas[i := q], k) == ConfirmedQty(quotas, k) - ConfirmedShare(quotas[i], k) + ConfirmedShare(q, k)
    ensures HeldQty(quotas[i := q], k) == HeldQty(quotas, k) - HeldShare(quotas[i], k) + HeldShare(q, k)
    ensures Used(quotas[i := q], user, mode, day)
         == Used(quotas, user, mode, day) - UsedShare(quotas[i], user, mode, day) + UsedShare(q, user, mode, day)
  {
    var after := quotas[i := q];
    if i == 0 {
      assert after[1..] == quotas[1..];
    } else {
      assert after[1..] == quotas[1..][i - 1 := q];
      SumsAfterUpdate(quotas[1..], i - 1, q, k, user, mode, day);
    }
  }

  lemma {:induction false} SumsAfterAppend(quotas: seq<Quota>, q: Quota, k: ClientId, user: UserId, mode: Mode, day: Day)
    ensures ConfirmedQty(quotas + [q], k) == ConfirmedQty(quotas, k) + ConfirmedShare(q, k)
    ensures HeldQty(quotas + [q], k) == HeldQty(quotas, k) + HeldShare(q, k)
    ensures Used(quotas + [q], user, mode, day) == Used(quotas, user, mode, day) + UsedShare(q, user, mode, day)
  {
    var after := quotas + [q];
    if quotas == [] {
      assert after[1..] == [];
    } else {
      assert after[1..] == quotas[1..] + [q];
      SumsAfterAppend(quotas[1..], q, k, user, mode, day);
    }
  }

  ghost predicate Positive(quotas: seq<Quota>) { forall j :: 0 <= j < |quotas| ==> quotas[j].qty > 0 }

  lemma {:induction false} ConfirmedWithinHeld(quotas: seq<Quota>, k: ClientId)
    requires Positive(quotas)
    ensures 0 <= ConfirmedQty(quotas, k) <= HeldQty(quotas, k)
  {
    if quotas != [] {
      ConfirmedWithinHeld(quotas[1..], k);
    }
  }

  /** A held row counts towards its order. */
  lemma {:induction false} HeldCounts(quotas: seq<Quota>, i: nat)
    requires i < |quotas| && Positive(quotas) && Active(quotas[i].state)
    ensures quotas[i].qty <= HeldQty(quotas, quotas[i].id.client)
  {
    var k := quotas[i].id.client;
    ConfirmedWithinHeld(quotas[1..], k);
    if i > 0 {
      HeldCounts(quotas[1..], i - 1);
    }
  }

  predicate Counted(o: Order, user: UserId, mode: Mode, day: Day) {
    o.user == user && o.mode == mode && o.day == day && o.status != Failed
  }

  /** Exposure: total quantity of the orders of one user, mode and trading day that have not failed. */
  function Exposure(orders: seq<Order>, user: UserId, mode: Mode, day: Day): int {
    if orders == [] then 0
    else (if Counted(orders[0], user, mode, day) then orders[0].qty else 0) + Exposure(orders[1..], user, mode, day)
  }

  /** Quota held by the counted orders of a table. */
  function HeldByOrders(quotas: seq<Quota>, orders: seq<Order>, user: UserId, mode: Mode, day: Day): int {
    if orders == [] then 0
    else (if Counted(orders[0], user, mode, day) then HeldQty(quotas, orders[0].client) else 0)
         + HeldByOrders(quotas, orders[1..], user, mode, day)
  }

  predicate Owns(orders: seq<Order>, k: ClientId) { exists i :: 0 <= i < |orders| && orders[i].client == k }

  /** Rows held by distinct orders never add up to more than the scope's used quota. */
  lemma {:induction false} HeldByOrdersWithinUsed(quotas: seq<Quota>, orders: seq<Order>, user: UserId, mode: Mode, day: Day)
    requires Positive(quotas) && UniqueClients(orders)
    requires forall i, j | 0 <= i < |orders| && 0 <= j < |quotas| ::
               (quotas[j].id.client == orders[i].client && Counted(orders[i], user, mode, day) ==>
                  InScope(quotas[j], user, mode, day))
    ensures HeldByOrders(quotas, orders, user, mode, day) <= Used(quotas, user, mode, day)
    decreases |quotas|
  {
    if quotas == [] {
      NothingHeld(orders, user, mode, day);
    } else {
      SplitHeld(quotas, orders, user, mode, day);
      HeadShareBound(quotas[0], orders, user, mode, day);
      HeldByOrdersWithinUsed(quotas[1..], orders, user, mode, day);
    }
  }

  /** Share of one row in the counted orders. */
  function HeadShare(q: Quota, orders: seq<Order>, user: UserId, mode: Mode, day: Day): int {
    if orders == [] then 0
    else (if Counted(orders[0], user, mode, day) then HeldShare(q, orders[0].client) else 0)
         + HeadShare(q, orders[1..], user, mode, day)
  }

  lemma {:induction false} NothingHeld(orders: seq<Order>, user: UserId, mode: Mode, day: Day)
    ensures HeldByOrders([], orders, user, mode, day) == 0
  {
    if orders != [] { NothingHeld(orders[1..], user, mode, day); }
  }

  lemma {:induction false} SplitHeld(quotas: seq<Quota>, orders: seq<Order>, user: UserId, mode: Mode, day: Day)
    requires quotas != []
    ensures HeldByOrders(quotas, orders, user, mode, day)
         == HeadShare(quotas[0], orders, user, mode, day) + HeldByOrders(quotas[1..], orders, user, mode, day)
  {
    if orders != [] { SplitHeld(quotas, orders[1..], user, mode, day); }
  }

  lemma {:induction false} HeadShareBound(q: Quota, orders: seq<Order>, user: UserId, mode: Mode, day: Day)
    requires q.qty > 0 && UniqueClients(orders)
    requires forall i | 0 <= i < |orders| ::
               (q.id.client == orders[i].client && Counted(orders[i], user, mode, day) ==> InScope(q, user, mode, day))
    ensures HeadShare(q, orders, user, mode, day) <= UsedShare(q, user, mode, day)
    ensures !Owns(orders, q.id.client) ==> HeadShare(q, orders, user, mode, day) == 0
  {
    if orders != [] {
      var rest := orders[1..];
      assert forall i :: 0 <= i < |rest| ==> rest[i] == orders[i + 1];
      HeadShareBound(q, rest, user, mode, day);
      if orders[0].client == q.id.client {
        assert !Owns(rest, q.id.client);
      } else if Owns(rest, q.id.client) {
        var i :| 0 <= i < |rest| && rest[i].client == q.id.client;
        assert orders[i + 1].client == q.id.client;
      }
    }
  }

  lemma {:induction false} ExposureWithinHeld(quotas: seq<Quota>, orders: seq<Order>, user: UserId, mode: Mode, day: Day)
    requires forall i :: 0 <= i < |orders| && orders[i].status != Failed ==> orders[i].qty <= HeldQty(quotas, orders[i].client)
    ensures Exposure(orders, user, mode, day) <= HeldByOrders(quotas, orders, user, mode, day)
  {
    if orders != [] {
      var rest := orders[1..];
      assert forall i :: 0 <= i < |rest| ==> rest[i] == orders[i + 1];
      ExposureWithinHeld(quotas, rest, user, mode, day);
    }
  }

  // ---- Numbers and flights ----

  ghost predicate OrdnosUnique(orders: seq<Order>) {
    forall i, j :: 0 <= i < |orders| && 0 <= j < |orders| && i != j && orders[i].ordno.Some? ==>
      !HasOrdno(orders[j], orders[i].account, orders[i].mode, orders[i].ordno.value)
  }

  /** At most one placement per order and at most one unresolved update per order. */
  ghost predicate Flights(commands: map<CmdId, Command>) {
    forall a, b | a in commands && b in commands && a != b && commands[a].client == commands[b].client ::
      && !(commands[a].kind == Place && commands[b].kind == Place)
      && !(commands[a].kind == Update && commands[b].kind == Update && !commands[a].resolved && !commands[b].resolved)
  }

  predicate SameOrder(o: Order, n: Order) {
    && o.client == n.client && o.user == n.user && o.account == n.account && o.mode == n.mode && o.day == n.day
    && (o.ordno.Some? ==> n.ordno == o.ordno)
  }

  /** The order carrying a broker number is the order of every command that names it. */
  lemma FoundByOrdno(orders: seq<Order>, k: ClientId, ordno: Ordno)
    requires OrdnosUnique(orders) && UniqueClients(orders)
    requires LookupOrder(orders, k).Some? && LookupOrder(orders, k).value.ordno == Some(ordno)
    ensures var o := LookupOrder(orders, k).value; FindOrdno(orders, o.account, o.mode, ordno) == FindClient(orders, k)
  {
  }

  lemma OrdnosStayUnique(orders: seq<Order>, i: nat, n: Order)
    requires UniqueClients(orders) && OrdnosUnique(orders) && i < |orders| && SameOrder(orders[i], n)
    requires n.ordno != orders[i].ordno ==> !OrdnoTaken(orders, n.client, n.ordno)
    ensures OrdnosUnique(orders[i := n])
  {
  }
}
