/** What one step of the protocol keeps and can change, in every world its invariant allows. */
module LinkSteps {
  import opened Common
  import opened Ledger
  import opened AgentLink
  import opened Agreement

  lemma StepKeeps(w: World, e: Event, n: World)
    requires Inv(w) && Next(w, e, n)
    ensures Inv(n)
  {
    var replay :| ReplayFor(w, e, replay) && n == Step(w, e, replay);
    match e
    case ServerWrites(db) => EnvKeeps(w, db);
    case Connect => CutKeeps(w); ConnectKeeps(w);
    case Drop => CutKeeps(w);
    case LiveSend(id) => SendKeeps(w, id);
    case ServerReceives => ServerKeeps(w, replay);
    case AgentReceives => HandleKeeps(w);
    case NativeAnswers(ack) => AnswerKeeps(w, ack);
    case Pump(event) => PumpKeeps(w, event);
    case Callback(payload) => CallbackKeeps(w, payload);
    case Latch => LatchKeeps(w);
    case Restart(account, latched, cutoff) => RestartKeeps(w, account, latched, cutoff);
    case Tick(now) => TickKeeps(w, now);
  }

  lemma ConnectKeeps(w: World)
    requires Inv(Cut(w))
    ensures Inv(Step(w, Connect, []))
  {
  }

  // ---- What one step can change ----

  lemma AppliedRow(w: World, id: CmdId, ack: Ack, reply: Option<nat>)
    ensures var n := Apply(w, id, ack, reply);
      n.db.commands == w.db.commands
      || (Mine(w, id) && !w.db.commands[id].acked && n.db.commands == w.db.commands[id := AckedRow(w.db.commands[id], ack)])
  {
    if !Clashes(w.db, id, w.user, ack) { AckWrites(w.db, id, w.user, ack); }
  }

  /** The one command row a received message can write. */
  lemma ReceivedRow(w: World, replay: seq<Down>) returns (id: CmdId, ack: Ack)
    ensures var n := Step(w, ServerReceives, replay);
      n.db.commands == w.db.commands
      || (Mine(w, id) && !w.db.commands[id].acked && n.db.commands == w.db.commands[id := AckedRow(w.db.commands[id], ack)])
  {
    id, ack := 0, Refusal(Timeout);
    if w.up != [] && (w.up[0].UpAck? || w.up[0].UpReject?) {
      id, ack := w.up[0].id, w.up[0].ack;
      AppliedRow(w.(up := w.up[1..]), id, ack,
                 if w.up[0].UpAck? then Some(w.up[0].event) else if ack.error == Some(Failstop) then None else Some(0));
    }
  }

  lemma OtherRows(w: World, e: Event, replay: seq<Down>)
    requires !e.ServerReceives? && !e.ServerWrites?
    ensures Step(w, e, replay).db == w.db && Step(w, e, replay).user == w.user
  {
  }

  lemma AppliedLocal(w: World, id: CmdId, ack: Ack, reply: Option<nat>)
    ensures var n := Apply(w, id, ack, reply); n.user == w.user && n.buffer == w.buffer && n.calls == w.calls
  {
  }

  lemma ReceivedLocal(w: World, replay: seq<Down>)
    ensures var n := Step(w, ServerReceives, replay); n.user == w.user && n.buffer == w.buffer && n.calls == w.calls
  {
    if w.up != [] {
      var v := w.(up := w.up[1..]);
      match w.up[0]
      case UpAck(event, id, ack) => AppliedLocal(v, id, ack, Some(event));
      case UpReject(id, ack) => AppliedLocal(v, id, ack, if ack.error == Some(Failstop) then None else Some(0));
      case _ =>
    }
  }

  lemma HandleLocal(w: World, m: Down)
    ensures Handle(w, m).buffer.ledger == w.buffer.ledger
    ensures Handle(w, m).calls == w.calls
            || (m.Deliver? && m.id !in w.buffer.ledger && !w.latched && w.now < m.expires && Handle(w, m).calls == Bump(w.calls, m.id))
  {
  }

  lemma HandledLocal(w: World)
    ensures var n := Step(w, AgentReceives, []);
      n.buffer.ledger == w.buffer.ledger && (n.calls == w.calls || CallsBroker(w, AgentReceives, n))
  {
    if w.down != [] { HandleLocal(w.(down := w.down[1..]), w.down[0]); }
  }

  /** The ledger grows by recorded answers only, and the broker is called for delivered commands only. */
  lemma LocalStep(w: World, e: Event, replay: seq<Down>)
    ensures var n := Step(w, e, replay);
      && n.buffer.ledger == (if e.NativeAnswers? && w.exec.Some? && w.exec.value !in w.buffer.ledger
                             then w.buffer.ledger[w.exec.value := e.ack] else w.buffer.ledger)
      && (n.calls == w.calls || CallsBroker(w, e, n))
  {
    match e
    case ServerReceives => ReceivedLocal(w, replay);
    case AgentReceives => HandledLocal(w);
    case _ =>
  }

  predicate CallsBroker(w: World, e: Event, n: World) {
    e.AgentReceives? && w.down != [] && w.down[0].Deliver? && w.down[0].id !in w.buffer.ledger && !w.latched
    && w.now < w.down[0].expires && n.calls == Bump(w.calls, w.down[0].id)
  }

  lemma RowFrozen(w: World, e: Event, n: World, id: CmdId)
    requires Next(w, e, n) && Mine(w, id)
    ensures Mine(n, id) && FrozenRow(w.db.commands[id], n.db.commands[id])
  {
    var replay :| ReplayFor(w, e, replay) && n == Step(w, e, replay);
    if e.ServerReceives? {
      var cid, ack := ReceivedRow(w, replay);
      ReceivedLocal(w, replay);
    } else if e.ServerWrites? {
      assert EnvWrite(w, e.db);
    } else {
      OtherRows(w, e, replay);
    }
  }

  /** A row keeps its request, and once resolved its verdict. */
  predicate FrozenRow(c: Command, d: Command) {
    d.kind == c.kind && d.account == c.account && d.expires == c.expires && (c.acked ==> d.acked)
    && (c.resolved ==> d.resolved && d.outcome == c.outcome && d.via == c.via)
  }
}
