/** The report pipeline: raw callback rows, their quarantine and retries, the deduplicated deal ledger,
    and the books and orders the deals move; as values, one transaction at a time. */
module Inbox {
  import opened Common
  import opened Ledger
  import P = Positions

  datatype Scope = Scope(user: UserId, account: Account, mode: Mode, symbol: nat)

  /** What identifies a fill for good. */
  datatype DealKey = DealKey(account: Account, mode: Mode, day: Day, fillId: nat)

  /** A mapped deal report; quantity and price are positive, the order supplies symbol and open/close. */
  datatype Report = Report(
    key: DealKey, ordno: Option<Ordno>, brokerId: Option<nat>, action: P.Action, price: real, qty: int, fee: Option<real>)

  datatype Body =
    | DealBody(report: Report)
    | StatusBody(account: Account, mode: Mode, ordno: Option<Ordno>, brokerId: Option<nat>, status: Status)
    | ForeignBody                        // the payload names another account
    | BadBody                            // not mappable

  datatype Reason = AssociationPending | ScopeViolation | PayloadMismatch | UserMismatch

  datatype RawRow = RawRow(body: Body, owner: Option<UserId>, processed: bool, quarantine: bool, reason: Option<Reason>)

  datatype Booked = Booked(
    user: UserId, account: Account, mode: Mode, symbol: nat, octype: P.OcType, qty: int, ordno: Option<Ordno>,
    brokerId: Option<nat>, filled: P.Filled, status: Status)

  /** A landed deal: its key, the order it belongs to, its scope and the fill as booked. */
  datatype Deal = Deal(key: DealKey, order: nat, scope: Scope, fill: P.Fill)

  datatype Store = Store(rows: seq<RawRow>, deals: seq<Deal>, orders: seq<Booked>, books: map<Scope, P.Book>)

  const Blank := Store([], [], [], map[])

  function PointValue(symbol: nat): real { if symbol == 1 then 50.0 else 200.0 }

  function BookAt(s: Store, scope: Scope): P.Book { if scope in s.books then s.books[scope] else P.Flat }

  // ---- Association ----

  function FindBy(orders: seq<Booked>, account: Account, mode: Mode, ordno: Option<Ordno>, brokerId: Option<nat>): (r: Option<nat>)
    ensures r.Some? ==> r.value < |orders| && orders[r.value].account == account && orders[r.value].mode == mode
  {
    FindFrom(orders, 0, account, mode, ordno, brokerId)
  }

  /** First order in scope carrying the given key; exactly one of the two keys is asked for at a time. */
  function FindFrom(orders: seq<Booked>, i: nat, account: Account, mode: Mode, ordno: Option<Ordno>, brokerId: Option<nat>): (r: Option<nat>)
    ensures r.Some? ==> i <= r.value < |orders| && orders[r.value].account == account && orders[r.value].mode == mode
    decreases |orders| - i
  {
    if i >= |orders| then None
    else
      var o := orders[i];
      if o.account == account && o.mode == mode
         && ((ordno.Some? && o.ordno == ordno) || (brokerId.Some? && o.brokerId == brokerId)) then Some(i)
      else FindFrom(orders, i + 1, account, mode, ordno, brokerId)
  }

  datatype Association = Found(order: nat) | Missing | Contradictory

  /** Both keys are looked up; two different orders are a contradiction, neither is a miss. */
  function Associate(s: Store, account: Account, mode: Mode, ordno: Option<Ordno>, brokerId: Option<nat>): (a: Association)
    ensures a.Found? ==> a.order < |s.orders| && s.orders[a.order].account == account && s.orders[a.order].mode == mode
  {
    var byOrdno := if ordno.Some? then FindBy(s.orders, account, mode, ordno, None) else None;
    var byBroker := if brokerId.Some? then FindBy(s.orders, account, mode, None, brokerId) else None;
    if byOrdno.Some? && byBroker.Some? && byOrdno != byBroker then Contradictory
    else if byOrdno.Some? then Found(byOrdno.value)
    else if byBroker.Some? then Found(byBroker.value)
    else Missing
  }

  // ---- One row ----

  predicate ReportOk(r: Report) { r.qty > 0 && r.price > 0.0 }

  function FillOf(r: Report, o: Booked): P.Fill { P.Fill(r.action, o.octype, r.price, r.qty, r.fee) }

  function ScopeOf(o: Booked): Scope { Scope(o.user, o.account, o.mode, o.symbol) }

  predicate Landed(deals: seq<Deal>, key: DealKey) { exists j :: 0 <= j < |deals| && deals[j].key == key }

  function Moved(status: Status, next: Status): Status { if CanMove(status, next) then next else status }

  /** The fill reaches its order: quantity and average always, status under the guard. */
  function FillOrder(o: Booked, f: P.Fill): Booked
    requires o.filled.qty >= 0 && P.FillOk(f)
  {
    var filled := P.AddFill(o.filled, f);
    o.(filled := filled, status := Moved(o.status, if filled.qty >= o.qty then Filled else PartFilled))
  }

  datatype Outcome =
    | Lands(deals: seq<Deal>, orders: seq<Booked>, books: map<Scope, P.Book>)
    | Refuses(reason: Reason)

  ghost predicate StoreTyped(s: Store) {
    && (forall scope :: scope in s.books ==> P.BookOk(s.books[scope]))
    && (forall k :: 0 <= k < |s.orders| ==> s.orders[k].filled.qty >= 0)
    && (forall i :: 0 <= i < |s.rows| && s.rows[i].body.DealBody? ==> ReportOk(s.rows[i].body.report))
  }

  function ProcessDeal(s: Store, owner: Option<UserId>, r: Report): Outcome
    requires StoreTyped(s) && ReportOk(r)
  {
    // The worker takes the first key that hits; the tracker later insists that both agree.
    var a := Associate(s, r.key.account, r.key.mode, r.ordno, r.brokerId);
    var first := if a.Contradictory? then FindBy(s.orders, r.key.account, r.key.mode, r.ordno, None)
                 else if a.Found? then Some(a.order) else None;
    if first.None? then Refuses(AssociationPending)
    else if owner.Some? && s.orders[first.value].user != owner.value then Refuses(UserMismatch)
    else if Landed(s.deals, r.key) then Lands(s.deals, s.orders, s.books)
    else if a.Contradictory? then Refuses(AssociationPending)
    else
      var o := s.orders[first.value];
      var f := FillOf(r, o);
      var booked := P.ApplyFill(BookAt(s, ScopeOf(o)), f, o.mode, PointValue(o.symbol));
      if booked.Fails? then Refuses(AssociationPending)
      else
        Lands(s.deals + [Deal(r.key, first.value, ScopeOf(o), f)], s.orders[first.value := FillOrder(o, f)],
              s.books[ScopeOf(o) := booked.value])
  }

  function ProcessStatus(s: Store, owner: Option<UserId>, b: Body): Outcome
    requires b.StatusBody?
  {
    var a := Associate(s, b.account, b.mode, b.ordno, b.brokerId);
    if !a.Found? then Refuses(AssociationPending)
    else if owner.Some? && s.orders[a.order].user != owner.value then Refuses(UserMismatch)
    else Lands(s.deals, s.orders[a.order := s.orders[a.order].(status := Moved(s.orders[a.order].status, b.status))], s.books)
  }

  function Process(s: Store, row: RawRow): Outcome
    requires StoreTyped(s) && (row.body.DealBody? ==> ReportOk(row.body.report))
  {
    match row.body
    case DealBody(r) => ProcessDeal(s, row.owner, r)
    case StatusBody(_, _, _, _, _) => ProcessStatus(s, row.owner, row.body)
    case ForeignBody => Refuses(PayloadMismatch)
    case BadBody => Refuses(AssociationPending)
  }

  predicate Dead(r: Reason) { r != AssociationPending }

  function Quarantined(row: RawRow, reason: Reason): RawRow {
    row.(quarantine := true, reason := Some(reason), processed := row.processed || Dead(reason))
  }

  predicate Ready(row: RawRow) { !row.processed && !row.quarantine }

  /** One row's transaction: it lands whole, or it is rolled back and quarantined, or, on an error
      nobody foresaw, nothing at all happens. The flag says whether something landed. */
  function ProcessOne(s: Store, i: nat, breaks: bool): (Store, bool)
    requires StoreTyped(s)
  {
    if i >= |s.rows| || !Ready(s.rows[i]) || breaks then (s, false)
    else
      match Process(s, s.rows[i])
      case Lands(deals, orders, books) => (Store(s.rows[i := s.rows[i].(processed := true)], deals, orders, books), true)
      case Refuses(reason) => (s.(rows := s.rows[i := Quarantined(s.rows[i], reason)]), false)
  }

  // ---- Everything else that touches the tables ----

  function Staged(body: Body, owner: Option<UserId>, violation: bool): RawRow {
    var row := RawRow(body, owner, false, false, None);
    if violation then Quarantined(row, ScopeViolation) else row
  }

  predicate Releasable(row: RawRow, owner: Option<UserId>) {
    row.quarantine && (row.reason == None || row.reason == Some(AssociationPending)) && (owner == None || row.owner == owner)
  }

  function Release(rows: seq<RawRow>, owner: Option<UserId>, chosen: set<nat>): (r: seq<RawRow>)
    ensures |r| == |rows|
    ensures forall i :: 0 <= i < |rows| ==>
              r[i] == if i in chosen && Releasable(rows[i], owner) then rows[i].(quarantine := false, reason := None) else rows[i]
  {
    seq(|rows|, i requires 0 <= i < |rows| =>
      if i in chosen && Releasable(rows[i], owner) then rows[i].(quarantine := false, reason := None) else rows[i])
  }

  datatype Event =
    | Stages(body: Body, owner: Option<UserId>, violation: bool)
    | Runs(i: nat, breaks: bool)
    | Releases(owner: Option<UserId>, chosen: set<nat>)
    | Places(order: Booked)
    | Numbers(k: nat, ordno: Option<Ordno>, brokerId: Option<nat>, status: Status)

  predicate Enabled(s: Store, e: Event) {
    match e
    case Stages(body, _, _) => body.DealBody? ==> ReportOk(body.report)
    case Runs(_, _) => true
    case Releases(_, _) => true
    case Places(o) => o.filled == P.Filled(0, 0.0)
    case Numbers(k, _, _, _) => k < |s.orders|
  }

  function Step(s: Store, e: Event): Store
    requires StoreTyped(s) && Enabled(s, e)
  {
    match e
    case Stages(body, owner, violation) => s.(rows := s.rows + [Staged(body, owner, violation)])
    case Runs(i, breaks) => ProcessOne(s, i, breaks).0
    case Releases(owner, chosen) => s.(rows := Release(s.rows, owner, chosen))
    case Places(o) => s.(orders := s.orders + [o])
    case Numbers(k, ordno, brokerId, status) =>
      s.(orders := s.orders[k := s.orders[k].(ordno := ordno, brokerId := brokerId, status := status)])
  }
}
