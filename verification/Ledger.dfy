/** The server's order pipeline tables (orders, quota reservations, command ledger) and the
    meaning of every write to them, as functions on table values. `LedgerStore` performs the
    same writes in place and is proved equal to these functions. */
module Ledger {
  import opened Common

  // ---- Orders ----

  datatype Status = Pending | Sending | Submitted | PartFilled | Filled | Cancelled | Failed | Unknown

  datatype Order = Order(
    client: ClientId, user: UserId, account: Account, mode: Mode, day: Day,
    qty: int, price: real, ordno: Option<Ordno>, status: Status)

  predicate Terminal(s: Status) { s == Cancelled || s == Failed }

  function Rank(s: Status): int {
    match s
    case Pending => 0
    case Sending => 1
    case Submitted => 2
    case PartFilled => 3
    case Filled => 4
    case Cancelled => -1
    case Failed => -1
    case Unknown => -1
  }

  /** The status order guard. */
  predicate CanMove(current: Status, next: Status) {
    if current == next then false
    else if Terminal(current) then false
    else if Terminal(next) then current != Filled
    else if next == Unknown then current != Filled
    else if current == Unknown then true
    else Rank(next) > Rank(current)
  }

  function MarkStatus(o: Order, next: Status): Order {
    if CanMove(o.status, next) then o.(status := next) else o
  }

  /** Index of the order with this client id, or the length of the table. */
  function FindClient(orders: seq<Order>, k: ClientId): (i: nat)
    ensures i <= |orders|
    ensures i < |orders| ==> orders[i].client == k
    ensures forall j :: 0 <= j < i ==> orders[j].client != k
  {
    if orders == [] then 0
    else if orders[0].client == k then 0
    else 1 + FindClient(orders[1..], k)
  }

  predicate HasOrdno(o: Order, account: Account, mode: Mode, ordno: Ordno) {
    o.account == account && o.mode == mode && o.ordno == Some(ordno)
  }

  /** Index of the order carrying this broker order number in this scope, or the length of the table. */
  function FindOrdno(orders: seq<Order>, account: Account, mode: Mode, ordno: Ordno): (i: nat)
    ensures i <= |orders|
    ensures i < |orders| ==> HasOrdno(orders[i], account, mode, ordno)
    ensures forall j :: 0 <= j < i ==> !HasOrdno(orders[j], account, mode, ordno)
  {
    if orders == [] then 0
    else if HasOrdno(orders[0], account, mode, ordno) then 0
    else 1 + FindOrdno(orders[1..], account, mode, ordno)
  }

  // ---- Quota reservations ----

  /** Reservation keys: the client id for a placement, the client id and the hash of the whole
      new content for an update. Hashes of one order differ only through quantity and price. */
  datatype ResId = PlaceRes(client: ClientId) | UpdateRes(client: ClientId, qty: int, price: real)

  datatype QuotaState = Reserved | Confirmed | Released

  datatype Quota = Quota(id: ResId, user: UserId, mode: Mode, day: Day, qty: int, state: QuotaState)

  predicate Active(s: QuotaState) { s != Released }

  predicate InScope(q: Quota, user: UserId, mode: Mode, day: Day) {
    q.user == user && q.mode == mode && q.day == day
  }

  function FindQuota(quotas: seq<Quota>, id: ResId): (i: nat)
    ensures i <= |quotas|
    ensures i < |quotas| ==> quotas[i].id == id
    ensures forall j :: 0 <= j < i ==> quotas[j].id != id
  {
    if quotas == [] then 0
    else if quotas[0].id == id then 0
    else 1 + FindQuota(quotas[1..], id)
  }

  /** Quota in use for one user, mode and trading day: reserved plus confirmed. */
  function Used(quotas: seq<Quota>, user: UserId, mode: Mode, day: Day): int {
    if quotas == [] then 0
    else (if InScope(quotas[0], user, mode, day) && Active(quotas[0].state) then quotas[0].qty else 0)
         + Used(quotas[1..], user, mode, day)
  }

  function Reserve(quotas: seq<Quota>, id: ResId, user: UserId, mode: Mode, day: Day, qty: int, limit: int)
    : (seq<Quota>, bool)
  {
    var i := FindQuota(quotas, id);
    if i < |quotas| then (quotas, Active(quotas[i].state))
    else if Used(quotas, user, mode, day) + qty <= limit then
      (quotas + [Quota(id, user, mode, day, qty, Reserved)], true)
    else (quotas, false)
  }

  /** The one-way move out of `Reserved` that both confirm and release make. */
  function Settle(quotas: seq<Quota>, id: ResId, next: QuotaState): seq<Quota> {
    var i := FindQuota(quotas, id);
    if i < |quotas| && quotas[i].state == Reserved then quotas[i := quotas[i].(state := next)] else quotas
  }

  function SettleOpt(quotas: seq<Quota>, id: Option<ResId>, next: QuotaState): seq<Quota> {
    if id.Some? then Settle(quotas, id.value, next) else quotas
  }

  // ---- Command ledger ----

  datatype Kind = Place | Cancel | Update
  datatype Outcome = OutOk | OutError | OutUnknown
  datatype Via = ByAck | ByQuery | ByReport | ByLocal

  datatype Command = Command(
    kind: Kind, user: UserId, account: Account, mode: Mode, client: ClientId,
    ordno: Option<Ordno>, reservation: Option<ResId>, qty: int, price: Option<real>, expires: int,
    acked: bool, timedOut: bool, outcome: Option<Outcome>, via: Option<Via>, resolved: bool,
    resultOrdno: Option<Ordno>)

  function NewCommand(kind: Kind, o: Order, reservation: Option<ResId>, qty: int, price: Option<real>, expires: int)
    : Command
  {
    Command(kind, o.user, o.account, o.mode, o.client, if kind == Place then None else o.ordno,
            reservation, qty, price, expires, false, false, None, None, false, None)
  }

  datatype ErrorKind = TradeNotFound | Exception | ModeMismatch | Expired | ScopeMismatch | Failstop | Timeout

  /** What an agent reports about one command. */
  datatype Ack = Ack(ok: bool, error: Option<ErrorKind>, ordno: Option<Ordno>)

  predicate ExplicitReject(a: Ack) { a.error.Some? && a.error.value != Timeout }

  datatype Db = Db(commands: map<CmdId, Command>, orders: seq<Order>, quotas: seq<Quota>)

  /** The only atomic write that settles a command: it takes effect on an unresolved row only. */
  function CasResolve(commands: map<CmdId, Command>, id: CmdId, outcome: Outcome, via: Via,
                      resultOrdno: Option<Ordno>)
    : (map<CmdId, Command>, bool)
  {
    if id in commands && !commands[id].resolved then
      (commands[id := commands[id].(outcome := Some(outcome), via := Some(via), resolved := true,
                                    resultOrdno := resultOrdno)], true)
    else (commands, false)
  }

  predicate UpdateUnresolved(commands: map<CmdId, Command>, k: ClientId) {
    exists id :: id in commands && commands[id].kind == Update && commands[id].client == k && !commands[id].resolved
  }

  // ---- Effects on orders and quota ----

  function PlaceAckOrder(o: Order, ordno: Option<Ordno>): Order {
    o.(ordno := ordno, status := Submitted)
  }

  /** Place accepted: number and status written without the status guard, reservation confirmed. */
  function PlaceAcked(db: Db, k: ClientId, ordno: Option<Ordno>, res: Option<ResId>): Db {
    var i := FindClient(db.orders, k);
    if i < |db.orders| then
      db.(orders := db.orders[i := PlaceAckOrder(db.orders[i], ordno)],
          quotas := SettleOpt(db.quotas, res, Confirmed))
    else db
  }

  function PlaceFailed(db: Db, k: ClientId, res: Option<ResId>, status: Status): Db {
    var i := FindClient(db.orders, k);
    if i < |db.orders| then
      db.(orders := db.orders[i := MarkStatus(db.orders[i], status)],
          quotas := if status == Failed then SettleOpt(db.quotas, res, Released) else db.quotas)
    else db
  }

  function UpdateAckOrder(o: Order, price: Option<real>, qty: int): Order {
    MarkStatus(o.(price := if price.Some? then price.value else o.price, qty := qty), Submitted)
  }

  /** Another order of the same scope already carries this number: the unique key refuses the write. */
  predicate OrdnoTaken(orders: seq<Order>, k: ClientId, ordno: Option<Ordno>) {
    var i := FindClient(orders, k);
    i < |orders| && ordno.Some? &&
    exists j :: 0 <= j < |orders| && j != i && HasOrdno(orders[j], orders[i].account, orders[i].mode, ordno.value)
  }

  function FindCommandOrder(db: Db, c: Command): (i: nat)
    ensures i <= |db.orders|
  {
    if c.kind == Place then FindClient(db.orders, c.client)
    else if c.ordno.Some? then FindOrdno(db.orders, c.account, c.mode, c.ordno.value)
    else |db.orders|
  }

  /** Effects of an `ok` ack that won the resolve. */
  function OkEffects(db: Db, c: Command, ack: Ack): Db {
    var i := FindCommandOrder(db, c);
    if i == |db.orders| then db
    else match c.kind
      case Place => PlaceAcked(db, c.client, ack.ordno, c.reservation)
      case Cancel => db.(orders := db.orders[i := MarkStatus(db.orders[i], Cancelled)])
      case Update => db.(orders := db.orders[i := UpdateAckOrder(db.orders[i], c.price, c.qty)],
                         quotas := SettleOpt(db.quotas, c.reservation, Confirmed))
  }

  /** Effects of an explicit rejection that won the resolve: only a placement fails its order. */
  function RejectEffects(db: Db, c: Command): Db {
    match c.kind
    case Place => PlaceFailed(db, c.client, c.reservation, Failed)
    case Cancel => db
    case Update => db.(quotas := SettleOpt(db.quotas, c.reservation, Released))
  }

  /** Effects of an ack that says neither yes nor no. */
  function TimeoutEffects(db: Db, c: Command): Db {
    if c.kind == Place then PlaceFailed(db, c.client, None, Unknown) else db
  }

  /** An accepting ack whose number another order carries: the unique key refuses it. */
  predicate Clashes(db: Db, id: CmdId, user: UserId, ack: Ack) {
    id in db.commands && db.commands[id].user == user && !db.commands[id].acked && !db.commands[id].resolved
    && ack.ok && db.commands[id].kind == Place && OrdnoTaken(db.orders, db.commands[id].client, ack.ordno)
  }

  datatype Applied = Applied(found: bool, mismatch: bool, won: bool, late: bool, applied: bool)

  /** The single entry for agent acks. A write refused by a unique key rolls everything back. */
  function ApplyAck(db: Db, id: CmdId, user: UserId, ack: Ack): (Db, Applied) {
    if id !in db.commands then (db, Applied(false, false, false, false, false))
    else
      var c := db.commands[id];
      if c.user != user then (db, Applied(true, true, false, false, false))
      else if c.acked then (db, Applied(true, false, false, false, false))
      else
        var acked := db.(commands := db.commands[id := c.(acked := true)]);
        if c.resolved then (acked, Applied(true, false, true, true, false))
        else if ack.ok then
          if c.kind == Place && OrdnoTaken(db.orders, c.client, ack.ordno) then
            (db, Applied(true, false, false, false, false))
          else
            (OkEffects(acked.(commands := CasResolve(acked.commands, id, OutOk, ByAck, ack.ordno).0), c, ack),
             Applied(true, false, true, false, true))
        else if ExplicitReject(ack) then
          (RejectEffects(acked.(commands := CasResolve(acked.commands, id, OutError, ByAck, None).0), c),
           Applied(true, false, true, false, true))
        else
          (TimeoutEffects(acked.(commands := acked.commands[id := acked.commands[id].(outcome := Some(OutUnknown))]), c),
           Applied(true, false, true, false, true))
  }

  // ---- Route-side writes ----

  /** The route gave up waiting: it may only act on a command no ack has reached. */
  function TimeoutObserved(db: Db, id: CmdId): (Db, bool) {
    if id in db.commands && !db.commands[id].acked && !db.commands[id].timedOut then
      var c := db.commands[id];
      var marked := db.(commands := db.commands[id := c.(timedOut := true)]);
      (if c.kind == Place then PlaceFailed(marked, c.client, None, Unknown) else marked, true)
    else (db, false)
  }

  /** The route knows it never sent the command: effects first, then the resolve, which may lose. */
  function NeverDispatched(db: Db, id: CmdId): Db {
    if id !in db.commands || db.commands[id].kind == Cancel then db
    else
      var c := db.commands[id];
      var released :=
        if c.kind == Place then PlaceFailed(db, c.client, c.reservation, Failed)
        else db.(quotas := SettleOpt(db.quotas, c.reservation, Released));
      released.(commands := CasResolve(released.commands, id, OutError, ByLocal, None).0)
  }

  /** The route's own write-back after an `ok` answer it was handed. It does not look at the row: as a rule it
      repeats what the ack already wrote. A number another order carries refuses it. */
  function RouteTail(db: Db, id: CmdId, ordno: Option<Ordno>): Db {
    if id !in db.commands then db
    else
      var c := db.commands[id];
      var i := FindClient(db.orders, c.client);
      if i == |db.orders| then db
      else match c.kind
        case Place => if OrdnoTaken(db.orders, c.client, ordno) then db else PlaceAcked(db, c.client, ordno, c.reservation)
        case Cancel => db.(orders := db.orders[i := MarkStatus(db.orders[i], Cancelled)])
        case Update => db.(orders := db.orders[i := UpdateAckOrder(db.orders[i], c.price, c.qty)],
                           quotas := SettleOpt(db.quotas, c.reservation, Confirmed))
  }

  // ---- Resolvers ----

  datatype Resolution = ConfirmedByQty | ReleasedByQty | ConservativelyConfirmed | LeftPending

  predicate TerminalForResolver(s: Status) { s == Cancelled || s == Failed || s == Filled }

  /** What the unknown-update resolver decides from the broker's current quantity. */
  function Decide(o: Order, c: Command, realQty: Option<int>): Resolution {
    var determinable := c.qty != o.qty;
    if determinable && realQty == Some(c.qty) then ConfirmedByQty
    else if determinable && realQty == Some(o.qty) then ReleasedByQty
    else if TerminalForResolver(o.status) then ConservativelyConfirmed
    else LeftPending
  }

  function ResolveUpdate(db: Db, id: CmdId, realQty: Option<int>): (Db, Resolution) {
    if id !in db.commands || db.commands[id].resolved || db.commands[id].ordno.None? then (db, LeftPending)
    else
      var c := db.commands[id];
      var i := FindOrdno(db.orders, c.account, c.mode, c.ordno.value);
      if i == |db.orders| then (db, LeftPending)
      else
        var d := Decide(db.orders[i], c, realQty);
        match d
        case ConfirmedByQty =>
          (db.(commands := CasResolve(db.commands, id, OutOk, ByQuery, None).0,
               orders := db.orders[i := UpdateAckOrder(db.orders[i], c.price, c.qty)],
               quotas := SettleOpt(db.quotas, c.reservation, Confirmed)), d)
        case ReleasedByQty =>
          (db.(commands := CasResolve(db.commands, id, OutError, ByQuery, None).0,
               quotas := SettleOpt(db.quotas, c.reservation, Released)), d)
        case ConservativelyConfirmed =>
          (db.(commands := CasResolve(db.commands, id, OutUnknown, ByReport, None).0,
               quotas := SettleOpt(db.quotas, c.reservation, Confirmed)), d)
        case LeftPending => (db, d)
  }

  function ResolveCancel(db: Db, id: CmdId): (Db, bool) {
    if id !in db.commands || db.commands[id].resolved || db.commands[id].ordno.None? then (db, false)
    else
      var c := db.commands[id];
      var i := FindOrdno(db.orders, c.account, c.mode, c.ordno.value);
      if i == |db.orders| || !TerminalForResolver(db.orders[i].status) then (db, false)
      else (db.(commands := CasResolve(db.commands, id, OutUnknown, ByReport, None).0), true)
  }

  // ---- Decision sections ----

  /** Risk check of a placement: quota reserved and order created in one transaction. */
  function CheckPlace(db: Db, o: Order, limit: int): Db {
    if FindClient(db.orders, o.client) < |db.orders| then db
    else
      var (quotas, ok) := Reserve(db.quotas, PlaceRes(o.client), o.user, o.mode, o.day, o.qty, limit);
      if ok then db.(orders := db.orders + [o], quotas := quotas) else db
  }

  /** Risk check of an update: only an increase reserves, for the difference. */
  function CheckUpdate(db: Db, k: ClientId, qty: int, price: real, limit: int): (Db, bool) {
    var i := FindClient(db.orders, k);
    if i == |db.orders| || db.orders[i].ordno.None? || qty <= 0 then (db, false)
    else
      var o := db.orders[i];
      if qty <= o.qty then (db, true)
      else
        var (quotas, ok) := Reserve(db.quotas, UpdateRes(k, qty, price), o.user, o.mode, o.day, qty - o.qty, limit);
        if ok then (db.(quotas := quotas), true) else (db, false)
  }

  /** Reservation of the update that currently holds the order's single-flight slot. */
  predicate WinnerReserved(commands: map<CmdId, Command>, k: ClientId, res: ResId) {
    exists id :: id in commands && commands[id].kind == Update && commands[id].client == k
              && !commands[id].resolved && commands[id].reservation == Some(res)
  }

  /** Ledger insert of an update. A taken single-flight slot refuses it, and the attempt then
      gives back a reservation the winner is not using. */
  function InsertUpdate(db: Db, id: CmdId, k: ClientId, qty: int, price: real, expires: int): (Db, bool) {
    var i := FindClient(db.orders, k);
    if i == |db.orders| then (db, false)
    else
      var res := UpdateRes(k, qty, price);
      if UpdateUnresolved(db.commands, k) then
        (if WinnerReserved(db.commands, k, res) then db else db.(quotas := Settle(db.quotas, res, Released)), false)
      else
        (db.(commands := db.commands[id := NewCommand(Update, db.orders[i], Some(res), qty, Some(price), expires)]), true)
  }

  function InsertPlain(db: Db, id: CmdId, kind: Kind, k: ClientId, expires: int): Db
    requires kind != Update
  {
    var i := FindClient(db.orders, k);
    if i == |db.orders| then db
    else
      var o := db.orders[i];
      db.(commands := db.commands[id := NewCommand(kind, o, if kind == Place then Some(PlaceRes(k)) else None,
                                                   o.qty, Some(o.price), expires)])
  }
}
