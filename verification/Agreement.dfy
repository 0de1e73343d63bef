/** What every step of the protocol keeps, whatever is sent live. */
module Agreement {
  import opened Common
  import opened Ledger
  import opened Buffers
  import opened AgentLink

  predicate Mine(w: World, id: CmdId) { id in w.db.commands && w.db.commands[id].user == w.user }

  /** The agent will not run this command for the rest of the session. */
  predicate Refused(w: World, id: CmdId) {
    w.latched || (id in w.db.commands && w.now >= w.db.commands[id].expires)
  }

  predicate Copied(w: World, id: CmdId) { exists m :: m in w.down && m.Deliver? && m.id == id }

  // ---- Invariant, part by part ----

  ghost predicate SessionOk(w: World) {
    && (w.loggedIn ==> w.linked && w.channel == w.account)
    && (w.down != [] || w.up != [] || w.exec.Some? ==> w.linked)
    && (forall u :: u in w.up && u.Login? ==> u.account == w.account)
  }

  ghost predicate CopiesOk(w: World) {
    && (forall m :: m in w.down && m.Deliver? ==>
          Mine(w, m.id) && m.account == w.account && m.expires == w.db.commands[m.id].expires)
    && (w.exec.Some? ==> Mine(w, w.exec.value) && w.exec.value !in w.buffer.ledger)
  }

  ghost predicate UpOk(w: World) {
    && (forall u :: u in w.up && u.UpAck? ==> u.id in w.buffer.ledger && w.buffer.ledger[u.id] == u.ack)
    && (forall u :: u in w.up && u.UpReject? ==> !u.ack.ok)
  }

  /** An acknowledged command is settled, or honestly unknown. */
  predicate Decided(c: Command) { c.acked ==> c.resolved || c.outcome == Some(OutUnknown) }

  ghost predicate RowsOk(w: World) { forall id :: Mine(w, id) ==> Decided(w.db.commands[id]) }

  /** Event ids on the wire name the row they came from. */
  ghost predicate EventsOk(w: World) {
    && (forall u | u in w.up && u.UpReport? :: FromRow(w, u.event, Report(u.payload)))
    && (forall u | u in w.up && u.UpAck? :: FromRow(w, u.event, CmdAck(u.id, u.ack)))
    && (forall m | m in w.down && m.ReportAck? :: m.event < w.buffer.next && (m.event in w.buffer.rows ==> Delivered(w, m.event)))
  }

  predicate FromRow(w: World, e: nat, body: Body) {
    0 < e < w.buffer.next && (e in w.buffer.rows ==> w.buffer.rows[e].body == body)
  }

  /** The server has taken in what the row says. */
  predicate Delivered(w: World, e: nat)
    requires e in w.buffer.rows
  {
    match w.buffer.rows[e].body
    case Report(_) => e in w.committed
    case CmdAck(id, _) => Mine(w, id) && w.db.commands[id].acked
  }

  ghost predicate ReportsOk(w: World) {
    forall e :: e in w.appended ==>
      0 < e < w.buffer.next
      && (e in w.committed || (Unsent(w.buffer, e) && w.buffer.rows[e].body.Report?))
  }

  ghost predicate CallsOk(w: World) {
    forall id :: Count(w.calls, id) == (if id in w.buffer.ledger then 1 else 0) + (if w.exec == Some(id) then 1 else 0) + Count(w.lost, id)
  }

  /** Open placements and updates belong to the logged-in account. */
  ghost predicate RiskOk(w: World) {
    w.loggedIn ==> forall id :: Mine(w, id) && w.db.commands[id].kind != Cancel && !w.db.commands[id].resolved ==>
      w.db.commands[id].account == w.channel
  }

  ghost predicate Inv(w: World) {
    BufferOk(w.buffer) && SessionOk(w) && CopiesOk(w) && UpOk(w) && RowsOk(w) && EventsOk(w) && ReportsOk(w) && CallsOk(w) && RiskOk(w)
  }

  // ---- Steps ----

  lemma CutKeeps(w: World)
    requires Inv(w)
    ensures Inv(Cut(w))
  {
  }

  lemma EnvKeeps(w: World, db: Db)
    requires Inv(w) && EnvWrite(w, db)
    ensures Inv(w.(db := db))
  {
    var n := w.(db := db);
    forall id | Mine(n, id) ensures Decided(n.db.commands[id]) {
      if id in w.db.commands { assert Mine(w, id); }
    }
  }

  lemma LatchKeeps(w: World)
    requires Inv(w)
    ensures Inv(w.(latched := true))
  {
  }

  lemma TickKeeps(w: World, now: int)
    requires Inv(w) && now >= w.now
    ensures Inv(w.(now := now))
  {
  }

  lemma SendKeeps(w: World, id: CmdId)
    requires Inv(w) && Enabled(w, LiveSend(id))
    ensures Inv(Step(w, LiveSend(id), []))
  {
    var n := Step(w, LiveSend(id), []);
    var m := Deliver(id, w.channel, w.db.commands[id].expires);
    assert forall x :: x in n.down <==> x in w.down || x == m;
  }

  lemma PumpKeeps(w: World, e: nat)
    requires Inv(w) && Enabled(w, Pump(e))
    ensures Inv(Step(w, Pump(e), []))
  {
    var n := Step(w, Pump(e), []);
    assert forall x :: x in n.up <==> x in w.up || x == Uplink(e, w.buffer.rows[e].body);
  }

  lemma CallbackKeeps(w: World, payload: nat)
    requires Inv(w)
    ensures Inv(Step(w, Callback(payload), []))
  {
    AppendReportOk(w.buffer, payload, w.account);
  }

  lemma RestartKeeps(w: World, account: Account, latched: bool, cutoff: int)
    requires Inv(w)
    ensures Inv(Step(w, Restart(account, latched, cutoff), []))
  {
    CutKeeps(w);
    PruneOk(w.buffer, cutoff);
  }

  lemma AnswerKeeps(w: World, ack: Ack)
    requires Inv(w) && Enabled(w, NativeAnswers(ack))
    ensures Inv(Step(w, NativeAnswers(ack), []))
  {
    RecordOk(w.buffer, w.exec.value, ack, w.account);
    AnsweredRows(w, ack);
    AnsweredVerdicts(w, ack);
  }

  function Answered(w: World, ack: Ack): World
    requires w.exec.Some?
  {
    w.(exec := None, buffer := RecordExecution(w.buffer, w.exec.value, ack, w.account).0)
  }

  lemma AnsweredRows(w: World, ack: Ack)
    requires Inv(w) && w.exec.Some?
    ensures EventsOk(Answered(w, ack)) && ReportsOk(Answered(w, ack)) && SessionOk(Answered(w, ack))
  {
  }

  lemma AnsweredVerdicts(w: World, ack: Ack)
    requires Inv(w) && w.exec.Some?
    ensures var n := Answered(w, ack); CopiesOk(n) && UpOk(n) && RowsOk(n) && CallsOk(n) && RiskOk(n)
  {
  }

  /** Taking the first message off the downlink. */
  lemma TakenKeeps(w: World)
    requires Inv(w) && w.down != []
    ensures Inv(w.(down := w.down[1..]))
  {
  }

  /** What is known of a delivered command once it is off the queue. */
  predicate Arrived(w: World, m: Down) {
    m.Deliver? && Mine(w, m.id) && m.account == w.account && m.expires == w.db.commands[m.id].expires && w.linked && w.exec == None
  }

  predicate AckResolved(c: Command) { c.resolved && c.via == Some(ByAck) }

  lemma HitKeeps(w: World, m: Down)
    requires Inv(w) && Arrived(w, m) && m.id in w.buffer.ledger
    ensures Inv(w.(buffer := EnsureAckPending(w.buffer, m.id, w.account)))
  {
    AckIfAbsentOk(w.buffer, m.id, w.account);
  }

  lemma RefuseKeeps(w: World, m: Down, kind: ErrorKind)
    requires Inv(w) && Arrived(w, m)
    ensures Inv(w.(up := w.up + [UpReject(m.id, Refusal(kind))]))
  {
    var n := w.(up := w.up + [UpReject(m.id, Refusal(kind))]);
    assert forall x :: x in n.up <==> x in w.up || x == UpReject(m.id, Refusal(kind));
  }

  lemma CallKeeps(w: World, m: Down)
    requires Inv(w) && Arrived(w, m) && m.id !in w.buffer.ledger
    ensures Inv(w.(exec := Some(m.id), calls := Bump(w.calls, m.id)))
  {
  }

  lemma AckedKeeps(w: World, e: nat)
    requires Inv(w) && (e in w.buffer.rows ==> Delivered(w, e))
    ensures Inv(w.(buffer := MarkSent(w.buffer, e, w.now)))
  {
    MarkSentOk(w.buffer, e, w.now);
  }

  lemma ArrivedFrom(w: World)
    requires Inv(w) && Enabled(w, AgentReceives) && w.down[0].Deliver?
    ensures Arrived(w.(down := w.down[1..]), w.down[0])
  {
  }

  lemma HandleKeeps(w: World)
    requires Inv(w) && Enabled(w, AgentReceives)
    ensures Inv(Step(w, AgentReceives, []))
  {
    TakenKeeps(w);
    var v := w.(down := w.down[1..]);
    var m := w.down[0];
    if m.Deliver? {
      ArrivedFrom(w);
      if m.id in v.buffer.ledger { HitKeeps(v, m); }
      else if v.latched { RefuseKeeps(v, m, Failstop); }
      else if ExpiredAt(v, m.expires) { RefuseKeeps(v, m, Expired); }
      else { CallKeeps(v, m); }
    } else {
      assert m in w.down;
      AckedKeeps(v, m.event);
    }
  }

  // ---- What the server does with an uplink message ----

  /** The row an applied ack leaves behind. */
  function AckedRow(c: Command, ack: Ack): Command {
    var a := c.(acked := true);
    if c.resolved then a
    else if ack.ok then a.(outcome := Some(OutOk), via := Some(ByAck), resolved := true, resultOrdno := ack.ordno)
    else if ExplicitReject(ack) then a.(outcome := Some(OutError), via := Some(ByAck), resolved := true, resultOrdno := None)
    else a.(outcome := Some(OutUnknown))
  }

  lemma AckWrites(db: Db, id: CmdId, user: UserId, ack: Ack)
    requires !Clashes(db, id, user, ack)
    ensures var (next, r) := ApplyAck(db, id, user, ack);
      && (r.found && !r.mismatch <==> id in db.commands && db.commands[id].user == user)
      && next.commands ==
           if id in db.commands && db.commands[id].user == user && !db.commands[id].acked
           then db.commands[id := AckedRow(db.commands[id], ack)] else db.commands
  {
  }

  lemma ReceivedKeeps(w: World)
    requires Inv(w) && w.up != []
    ensures Inv(w.(up := w.up[1..]))
  {
  }

  function WithRow(w: World, id: CmdId, ack: Ack): World
    requires id in w.db.commands
  {
    w.(db := w.db.(commands := w.db.commands[id := AckedRow(w.db.commands[id], ack)]))
  }

  lemma RowKeeps(w: World, id: CmdId, ack: Ack)
    requires Inv(w) && Mine(w, id)
    ensures Inv(WithRow(w, id, ack))
  {
    var n := WithRow(w, id, ack);
    assert RowsOk(n) by {
      forall cid | Mine(n, cid) ensures Decided(n.db.commands[cid]) { assert Mine(w, cid); }
    }
    assert EventsOk(n) by {
      forall e | e in w.buffer.rows && Delivered(w, e) ensures Delivered(n, e) {}
    }
    RowScopes(w, id, ack);
  }

  lemma RowScopes(w: World, id: CmdId, ack: Ack)
    requires SessionOk(w) && CopiesOk(w) && UpOk(w) && RiskOk(w) && Mine(w, id)
    ensures var n := WithRow(w, id, ack); SessionOk(n) && CopiesOk(n) && UpOk(n) && RiskOk(n)
  {
  }

  /** Only the command rows matter to the invariant. */
  lemma TablesKeep(w: World, n: World)
    requires Inv(w) && n == w.(db := n.db) && n.db.commands == w.db.commands
    ensures Inv(n)
  {
  }

  lemma ReplyKeeps(w: World, e: nat)
    requires Inv(w) && e < w.buffer.next && (e in w.buffer.rows ==> Delivered(w, e))
    ensures Inv(Send(w, ReportAck(e)))
  {
  }

  lemma AppliedKeeps(w: World, id: CmdId, ack: Ack)
    requires Inv(w) && !Clashes(w.db, id, w.user, ack)
    ensures Inv(w.(db := ApplyAck(w.db, id, w.user, ack).0))
    ensures Mine(w, id) ==> var next := ApplyAck(w.db, id, w.user, ack).0.commands; id in next && next[id].acked
  {
    AckWrites(w.db, id, w.user, ack);
    var db := ApplyAck(w.db, id, w.user, ack).0;
    if Mine(w, id) && !w.db.commands[id].acked { RowKeeps(w, id, ack); }
    TablesKeep(w.(db := w.db.(commands := db.commands)), w.(db := db));
  }

  lemma ApplyKeeps(w: World, id: CmdId, ack: Ack, reply: Option<nat>)
    requires Inv(w)
    requires reply.Some? ==> reply.value < w.buffer.next
    requires reply.Some? && reply.value in w.buffer.rows ==> w.buffer.rows[reply.value].body == CmdAck(id, ack)
    ensures Inv(Apply(w, id, ack, reply))
  {
    if Clashes(w.db, id, w.user, ack) {
      CutKeeps(w);
    } else {
      AppliedKeeps(w, id, ack);
      AckWrites(w.db, id, w.user, ack);
      var v := w.(db := ApplyAck(w.db, id, w.user, ack).0);
      if reply.Some? && Mine(w, id) {
        assert v.buffer == w.buffer && Mine(v, id);
        ReplyKeeps(v, reply.value);
      }
    }
  }

  lemma LoginKeeps(w: World, account: Account, replay: seq<Down>)
    requires Inv(w) && w.linked && account == w.account && !LoginRefused(w.db, w.user, account)
    requires IsReplay(w.db, w.user, account, replay)
    ensures Inv(w.(loggedIn := true, channel := account, down := w.down + replay))
  {
  }

  lemma ServerKeeps(w: World, replay: seq<Down>)
    requires Inv(w) && Enabled(w, ServerReceives) && ReplayFor(w, ServerReceives, replay)
    ensures Inv(Step(w, ServerReceives, replay))
  {
    ReceivedKeeps(w);
    var v := w.(up := w.up[1..]);
    assert w.up[0] in w.up;
    match w.up[0]
    case Login(account) => if LoginRefused(w.db, w.user, account) { CutKeeps(v); } else { LoginKeeps(v, account, replay); }
    case UpReport(event, _) => if w.loggedIn { ReportKeeps(v, event); }
    case UpAck(event, id, ack) => ApplyKeeps(v, id, ack, Some(event));
    case UpReject(id, ack) => ApplyKeeps(v, id, ack, if ack.error == Some(Failstop) then None else Some(0));
  }

  lemma ReportKeeps(w: World, e: nat)
    requires Inv(w) && e < w.buffer.next && (e in w.buffer.rows ==> w.buffer.rows[e].body.Report?)
    ensures Inv(Send(w.(committed := w.committed + {e}), ReportAck(e)))
  {
    var v := w.(committed := w.committed + {e});
    assert EventsOk(v);
    ReplyKeeps(v, e);
  }
}
