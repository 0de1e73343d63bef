/** The whole protocol between the server and one user's agent as steps over explicit state: the
    server's command ledger and inbox, the agent's durable buffer and memory, and the two message
    queues of their WebSocket, which a disconnect empties. */
module AgentLink {
  import opened Common
  import opened Ledger
  import opened Buffers

  datatype Down = Deliver(id: CmdId, account: Account, expires: int) | ReportAck(event: nat)

  datatype Up =
    | Login(account: Account)
    | UpReport(event: nat, payload: nat)
    | UpAck(event: nat, id: CmdId, ack: Ack)      // from the outbox
    | UpReject(id: CmdId, ack: Ack)               // answered on the spot, not stored

  /** `channel` is the account of the last accepted login, `account` the one the agent runs under.
      `exec` is a command handed to the broker whose answer is not recorded yet. `calls`, `lost` and
      `committed` are history: native calls made, calls whose record a crash swallowed, and the report
      events the server has committed to its inbox. */
  datatype World = World(
    db: Db, user: UserId, linked: bool, loggedIn: bool, channel: Account, down: seq<Down>, up: seq<Up>,
    buffer: Buffer, account: Account, latched: bool, now: int, exec: Option<CmdId>,
    calls: map<CmdId, nat>, lost: map<CmdId, nat>, committed: set<nat>, appended: set<nat>)

  datatype Event =
    | ServerWrites(db: Db)                        // anything the server does besides applying an ack
    | Connect
    | Drop
    | LiveSend(id: CmdId)
    | ServerReceives
    | AgentReceives
    | NativeAnswers(ack: Ack)
    | Pump(event: nat)
    | Callback(payload: nat)
    | Latch
    | Restart(account: Account, latched: bool, cutoff: int)
    | Tick(now: int)

  function Count(m: map<CmdId, nat>, id: CmdId): nat { if id in m then m[id] else 0 }

  function Bump(m: map<CmdId, nat>, id: CmdId): map<CmdId, nat> { m[id := Count(m, id) + 1] }

  // ---- Server ----

  /** Commands of this user and account without any answer, sent again at login. */
  predicate Replayable(db: Db, user: UserId, account: Account, id: CmdId) {
    id in db.commands && db.commands[id].user == user && db.commands[id].account == account
    && !db.commands[id].acked && !db.commands[id].resolved
  }

  /** A placement or update of another account still open keeps the agent out. */
  predicate LoginRefused(db: Db, user: UserId, account: Account) {
    exists id :: id in db.commands && db.commands[id].user == user && db.commands[id].account != account
      && db.commands[id].kind != Cancel && !db.commands[id].resolved
  }

  /** The replay in some order: every replayable command once, and nothing else. */
  ghost predicate IsReplay(db: Db, user: UserId, account: Account, r: seq<Down>) {
    && (forall m :: m in r ==> m.Deliver? && Replayable(db, user, account, m.id)
                               && m == Deliver(m.id, account, db.commands[m.id].expires))
    && (forall id :: Replayable(db, user, account, id) ==> Deliver(id, account, db.commands[id].expires) in r)
    && (forall i, j :: 0 <= i < j < |r| ==> r[i] != r[j])
  }

  /** Everything else the server does: for this user it freezes requests and verdicts, adds fresh rows
      under the logged-in account, and never acknowledges a command or resolves one by ack. */
  ghost predicate EnvWrite(w: World, next: Db) {
    && (forall id :: id in w.db.commands ==> id in next.commands)
    && (forall id :: id in next.commands && id in w.db.commands ==>
          next.commands[id].user == w.db.commands[id].user
          && (w.db.commands[id].user == w.user ==> RowMoves(w.db.commands[id], next.commands[id])))
    && (forall id :: id in next.commands && id !in w.db.commands && next.commands[id].user == w.user ==> NewRowOk(w, next.commands[id]))
  }

  predicate RowMoves(c: Command, n: Command) {
    && n == c.(timedOut := n.timedOut, outcome := n.outcome, via := n.via, resolved := n.resolved, resultOrdno := n.resultOrdno)
    && (c.resolved ==> n.resolved && n.outcome == c.outcome && n.via == c.via && n.resultOrdno == c.resultOrdno)
    && (!c.resolved && n.resolved ==> n.via.Some? && n.via != Some(ByAck))
    && (!c.resolved && !n.resolved ==> n.outcome == c.outcome)
  }

  predicate NewRowOk(w: World, n: Command) {
    w.loggedIn && !n.acked && !n.resolved && n.outcome == None && n.account == w.channel
  }

  function Send(w: World, m: Down): World {
    if w.linked then w.(down := w.down + [m]) else w
  }

  /** A lost connection empties both queues, and the agent abandons the answer it was waiting for. */
  function Cut(w: World): World {
    w.(linked := false, loggedIn := false, down := [], up := [], exec := None,
       lost := if w.exec.Some? then Bump(w.lost, w.exec.value) else w.lost)
  }

  /** An ack applied by the server; a write the unique broker number refuses breaks the connection. */
  function Apply(w: World, id: CmdId, ack: Ack, reply: Option<nat>): World {
    var (db, r) := ApplyAck(w.db, id, w.user, ack);
    if Clashes(w.db, id, w.user, ack) then Cut(w)
    else if reply.Some? && r.found && !r.mismatch then Send(w.(db := db), ReportAck(reply.value))
    else w.(db := db)
  }

  // ---- Agent ----

  predicate ExpiredAt(w: World, expires: int) { w.now >= expires }

  function Refusal(kind: ErrorKind): Ack { Ack(false, Some(kind), None) }

  /** One downlink message; a mutating command goes through the ledger, the latch, the scope and the
      expiry before it reaches the broker. */
  function Handle(w: World, m: Down): World {
    match m
    case ReportAck(e) => w.(buffer := MarkSent(w.buffer, e, w.now))
    case Deliver(id, account, expires) =>
      if id in w.buffer.ledger then w.(buffer := EnsureAckPending(w.buffer, id, w.account))
      else if w.latched then w.(up := w.up + [UpReject(id, Refusal(Failstop))])
      else if account != w.account then w.(up := w.up + [UpReject(id, Refusal(ScopeMismatch))])
      else if ExpiredAt(w, expires) then w.(up := w.up + [UpReject(id, Refusal(Expired))])
      else w.(exec := Some(id), calls := Bump(w.calls, id))
  }

  function Uplink(e: nat, body: Body): Up {
    match body
    case Report(payload) => UpReport(e, payload)
    case CmdAck(id, ack) => UpAck(e, id, ack)
  }

  // ---- Steps ----

  ghost predicate Enabled(w: World, e: Event) {
    match e
    case ServerWrites(db) => EnvWrite(w, db)
    case Connect => true
    case Drop => true
    case LiveSend(id) => w.loggedIn && id in w.db.commands && w.db.commands[id].user == w.user
    case ServerReceives => w.up != [] && w.linked
    case AgentReceives => w.down != [] && w.linked && w.exec == None
    case NativeAnswers(_) => w.exec.Some?
    case Pump(event) => w.linked && Unsent(w.buffer, event)
    case Callback(_) => true
    case Latch => true
    case Restart(account, _, _) => account != w.account ==> forall e :: !Unsent(w.buffer, e)
    case Tick(now) => now >= w.now
  }

  /** `replay` lists the replayed commands of an accepted login. */
  function Step(w: World, e: Event, replay: seq<Down>): World {
    match e
    case ServerWrites(db) => w.(db := db)
    case Connect => Cut(w).(linked := true, up := [Login(w.account)])
    case Drop => Cut(w)
    case LiveSend(id) => if id in w.db.commands then Send(w, Deliver(id, w.channel, w.db.commands[id].expires)) else w
    case ServerReceives =>
      if w.up == [] then w
      else
        var rest := w.(up := w.up[1..]);
        (match w.up[0]
         case Login(account) =>
           if LoginRefused(w.db, w.user, account) then Cut(rest)
           else rest.(loggedIn := true, channel := account, down := rest.down + replay)
         case UpReport(event, _) =>
           if w.loggedIn then Send(rest.(committed := w.committed + {event}), ReportAck(event)) else rest
         case UpAck(event, id, ack) => Apply(rest, id, ack, Some(event))
         case UpReject(id, ack) => Apply(rest, id, ack, if ack.error == Some(Failstop) then None else Some(0)))
    case AgentReceives => if w.down == [] then w else Handle(w.(down := w.down[1..]), w.down[0])
    case NativeAnswers(ack) =>
      if w.exec.None? then w
      else w.(exec := None, buffer := RecordExecution(w.buffer, w.exec.value, ack, w.account).0)
    case Pump(event) =>
      if event in w.buffer.rows then w.(up := w.up + [Uplink(event, w.buffer.rows[event].body)]) else w
    case Callback(payload) =>
      w.(buffer := Append(w.buffer, Report(payload), w.account), appended := w.appended + {w.buffer.next})
    case Latch => w.(latched := true)
    case Restart(account, latched, cutoff) =>
      Cut(w).(account := account, latched := latched, buffer := PruneSent(w.buffer, cutoff))
    case Tick(now) => w.(now := now)
  }

  /** The replay that goes with an event: that of the login being accepted, or none. */
  ghost predicate ReplayFor(w: World, e: Event, replay: seq<Down>) {
    if e.ServerReceives? && w.up != [] && w.up[0].Login? then IsReplay(w.db, w.user, w.up[0].account, replay) else replay == []
  }

  ghost predicate Next(w: World, e: Event, n: World) {
    Enabled(w, e) && exists replay :: ReplayFor(w, e, replay) && n == Step(w, e, replay)
  }

  predicate Begins(w: World) {
    w.db == Db(map[], [], []) && !w.linked && !w.loggedIn && w.down == [] && w.up == [] && w.buffer == Empty
    && w.exec == None && w.calls == map[] && w.lost == map[] && w.committed == {} && w.appended == {}
  }

  ghost predicate Linked(worlds: seq<World>, events: seq<Event>, i: nat) {
    i < |events| && i + 1 < |worlds| && Next(worlds[i], events[i], worlds[i + 1])
  }

  /** A run: any start, then consecutive worlds linked by events. */
  ghost predicate Run(worlds: seq<World>, events: seq<Event>) {
    && |worlds| == |events| + 1 && Begins(worlds[0])
    && forall i :: 0 <= i < |events| ==> Linked(worlds, events, i)
  }
}
