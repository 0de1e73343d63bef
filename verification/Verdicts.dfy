/** The two ledgers about one command: what each step keeps of their agreement, and of its account, as
    long as live sends of that command are harmless. */
module Verdicts {
  import opened Common
  import opened Ledger
  import opened AgentLink
  import opened Agreement
  import opened LinkSteps

  /** A command the server gave up on and the agent never ran. */
  predicate GivenUp(w: World, id: CmdId) {
    Mine(w, id) && AckResolved(w.db.commands[id]) && w.db.commands[id].outcome == Some(OutError) && id !in w.buffer.ledger
  }

  /** The verdict an ack gave a command, against the agent's own ledger. */
  predicate Agrees(w: World, id: CmdId)
    requires id in w.db.commands
  {
    var c := w.db.commands[id];
    AckResolved(c) ==>
      || (c.outcome == Some(OutOk) && id in w.buffer.ledger && w.buffer.ledger[id].ok)
      || (c.outcome == Some(OutError) && id in w.buffer.ledger && !w.buffer.ledger[id].ok && ExplicitReject(w.buffer.ledger[id]))
      || (c.outcome == Some(OutError) && id !in w.buffer.ledger && w.exec != Some(id) && (Copied(w, id) ==> Refused(w, id)))
  }

  /** A refusal of the command that is still under way will stand. */
  ghost predicate RefusalsStand(w: World, id: CmdId) {
    forall u :: u in w.up && u.UpReject? && u.id == id ==>
      Mine(w, id) && !u.ack.ok && ExplicitReject(u.ack) && id !in w.buffer.ledger && w.exec != Some(id) && Refused(w, id)
  }

  ghost predicate AgreesOn(w: World, id: CmdId) { (Mine(w, id) ==> Agrees(w, id)) && RefusalsStand(w, id) }

  /** A live send of a command already given up reaches only an agent that refuses it. */
  predicate SendsSafe(w: World, e: Event, id: CmdId) { e == LiveSend(id) && GivenUp(w, id) ==> Refused(w, id) }

  // ---- Agreement, event by event ----

  lemma CutAgrees(w: World, id: CmdId)
    requires AgreesOn(w, id)
    ensures AgreesOn(Cut(w), id)
  {
  }

  lemma EnvAgrees(w: World, db: Db, id: CmdId)
    requires AgreesOn(w, id) && EnvWrite(w, db)
    ensures AgreesOn(w.(db := db), id)
  {
    if Mine(w.(db := db), id) && id in w.db.commands { assert Mine(w, id); }
  }

  lemma SendAgrees(w: World, cid: CmdId, id: CmdId)
    requires AgreesOn(w, id) && Enabled(w, LiveSend(cid)) && SendsSafe(w, LiveSend(cid), id)
    ensures AgreesOn(Step(w, LiveSend(cid), []), id)
  {
    var n := Step(w, LiveSend(cid), []);
    if Copied(n, id) && cid != id {
      var m :| m in n.down && m.Deliver? && m.id == id;
      assert m in w.down;
    }
  }

  /** These steps leave verdicts, copies and refusals as they are. */
  lemma SideAgrees(w: World, e: Event, id: CmdId)
    requires Inv(w) && AgreesOn(w, id) && Enabled(w, e)
    requires e.Pump? || e.Callback? || e.Latch? || e.Tick?
    ensures AgreesOn(Step(w, e, []), id)
  {
  }

  lemma AnswerAgrees(w: World, ack: Ack, id: CmdId)
    requires Inv(w) && AgreesOn(w, id) && w.exec.Some?
    ensures AgreesOn(Answered(w, ack), id)
  {
  }

  lemma HandleAgrees(w: World, id: CmdId)
    requires Inv(w) && AgreesOn(w, id) && Enabled(w, AgentReceives)
    ensures AgreesOn(Step(w, AgentReceives, []), id)
  {
    var m := w.down[0];
    var v := w.(down := w.down[1..]);
    assert m in w.down;
    TakenAgrees(w, id);
    if m.Deliver? && m.id == id { assert Copied(w, id); }
    MessageAgrees(v, m, id);
  }

  lemma TakenAgrees(w: World, id: CmdId)
    requires AgreesOn(w, id) && w.down != []
    ensures AgreesOn(w.(down := w.down[1..]), id)
  {
    var v := w.(down := w.down[1..]);
    if Copied(v, id) {
      var m :| m in v.down && m.Deliver? && m.id == id;
      assert m in w.down;
    }
  }

  lemma MessageAgrees(w: World, m: Down, id: CmdId)
    requires AgreesOn(w, id) && w.exec == None
    requires m.Deliver? ==> Mine(w, m.id) && m.account == w.account && m.expires == w.db.commands[m.id].expires
    requires m.Deliver? && m.id == id && GivenUp(w, id) ==> Refused(w, id)
    ensures AgreesOn(Handle(w, m), id)
  {
    if m.Deliver? {
      if m.id !in w.buffer.ledger {
        if w.latched { RefusalAgrees(w, m.id, Failstop, id); }
        else if ExpiredAt(w, m.expires) { RefusalAgrees(w, m.id, Expired, id); }
        else { CallAgrees(w, m.id, id); }
      }
    }
  }

  lemma RefusalAgrees(w: World, cid: CmdId, kind: ErrorKind, id: CmdId)
    requires AgreesOn(w, id) && w.exec == None && Mine(w, cid) && cid !in w.buffer.ledger && Refused(w, cid) && kind != Timeout
    ensures AgreesOn(w.(up := w.up + [UpReject(cid, Refusal(kind))]), id)
  {
  }

  lemma CallAgrees(w: World, cid: CmdId, id: CmdId)
    requires AgreesOn(w, id) && w.exec == None && cid !in w.buffer.ledger && !Refused(w, cid)
    requires cid == id ==> !GivenUp(w, id)
    ensures AgreesOn(w.(exec := Some(cid), calls := Bump(w.calls, cid)), id)
  {
  }

  /** An answer that may be applied: the stored one, or a refusal that will stand. */
  predicate Answer(w: World, id: CmdId, ack: Ack) {
    || (id in w.buffer.ledger && w.buffer.ledger[id] == ack)
    || (Mine(w, id) && !ack.ok && ExplicitReject(ack) && id !in w.buffer.ledger && w.exec != Some(id) && Refused(w, id))
  }

  lemma ApplyAgrees(w: World, cid: CmdId, ack: Ack, reply: Option<nat>, id: CmdId)
    requires AgreesOn(w, id) && (cid == id ==> Answer(w, id, ack))
    ensures AgreesOn(Apply(w, cid, ack, reply), id)
  {
    if Clashes(w.db, cid, w.user, ack) {
      CutAgrees(w, id);
    } else {
      AckWrites(w.db, cid, w.user, ack);
      RowAgrees(w, ApplyAck(w.db, cid, w.user, ack).0, cid, ack, id);
      ReplyAgrees(w.(db := ApplyAck(w.db, cid, w.user, ack).0), reply, id);
    }
  }

  lemma RowAgrees(w: World, db: Db, cid: CmdId, ack: Ack, id: CmdId)
    requires AgreesOn(w, id) && (cid == id ==> Answer(w, id, ack))
    requires db.commands == w.db.commands || (Mine(w, cid) && db.commands == w.db.commands[cid := AckedRow(w.db.commands[cid], ack)])
    ensures AgreesOn(w.(db := db), id)
  {
  }

  lemma ReplyAgrees(w: World, reply: Option<nat>, id: CmdId)
    requires AgreesOn(w, id)
    ensures reply.Some? ==> AgreesOn(Send(w, ReportAck(reply.value)), id)
  {
  }

  lemma ReceiveAgrees(w: World, replay: seq<Down>, id: CmdId)
    requires Inv(w) && AgreesOn(w, id) && Enabled(w, ServerReceives) && ReplayFor(w, ServerReceives, replay)
    ensures AgreesOn(Step(w, ServerReceives, replay), id)
  {
    var v := w.(up := w.up[1..]);
    assert w.up[0] in w.up;
    assert AgreesOn(v, id);
    match w.up[0]
    case Login(account) => if LoginRefused(w.db, w.user, account) { CutAgrees(v, id); } else { LoginAgrees(v, account, replay, id); }
    case UpReport(event, _) => if w.loggedIn { ReplyAgrees(v.(committed := v.committed + {event}), Some(event), id); }
    case UpAck(event, cid, ack) => ApplyAgrees(v, cid, ack, Some(event), id);
    case UpReject(cid, ack) => ApplyAgrees(v, cid, ack, if ack.error == Some(Failstop) then None else Some(0), id);
  }

  lemma LoginAgrees(w: World, account: Account, replay: seq<Down>, id: CmdId)
    requires AgreesOn(w, id) && IsReplay(w.db, w.user, account, replay)
    ensures AgreesOn(w.(loggedIn := true, channel := account, down := w.down + replay), id)
  {
  }

  lemma AgreementKeeps(w: World, e: Event, n: World, id: CmdId)
    requires Inv(w) && AgreesOn(w, id) && Next(w, e, n) && SendsSafe(w, e, id)
    ensures AgreesOn(n, id)
  {
    var replay :| ReplayFor(w, e, replay) && n == Step(w, e, replay);
    match e
    case ServerWrites(db) => EnvAgrees(w, db, id);
    case Connect => ConnectAgrees(w, id);
    case Drop => CutAgrees(w, id);
    case LiveSend(cid) => SendAgrees(w, cid, id);
    case ServerReceives => ReceiveAgrees(w, replay, id);
    case AgentReceives => HandleAgrees(w, id);
    case NativeAnswers(ack) => AnswerAgrees(w, ack, id);
    case Restart(account, latched, cutoff) => RestartAgrees(w, account, latched, cutoff, id);
    case _ => SideAgrees(w, e, id);
  }

  lemma ConnectAgrees(w: World, id: CmdId)
    requires AgreesOn(w, id)
    ensures AgreesOn(Step(w, Connect, []), id)
  {
  }

  lemma RestartAgrees(w: World, account: Account, latched: bool, cutoff: int, id: CmdId)
    requires AgreesOn(w, id)
    ensures AgreesOn(Step(w, Restart(account, latched, cutoff), []), id)
  {
  }

  // ---- Given up ----

  lemma GivenUpStays(w: World, e: Event, n: World, id: CmdId)
    requires Inv(w) && AgreesOn(w, id) && Next(w, e, n) && GivenUp(w, id)
    ensures GivenUp(n, id) && Count(n.calls, id) == Count(w.calls, id)
  {
    RowFrozen(w, e, n, id);
    var replay :| ReplayFor(w, e, replay) && n == Step(w, e, replay);
    if w.down != [] && w.down[0].Deliver? && w.down[0].id == id {
      assert w.down[0] in w.down && Copied(w, id);
    }
    LocalStep(w, e, replay);
  }

  // ---- Account ----

  /** Copies of the command, and the command under way, are in the session of its own account. */
  ghost predicate HomeOn(w: World, id: CmdId) {
    Mine(w, id) && (Copied(w, id) || w.exec == Some(id)) ==> w.db.commands[id].account == w.account
  }

  predicate SendsHome(w: World, e: Event, id: CmdId) {
    e == LiveSend(id) && id in w.db.commands ==> w.db.commands[id].account == w.channel
  }

  predicate Names(r: seq<Down>, id: CmdId) { exists m :: m in r && m.Deliver? && m.id == id }

  lemma AppliedCopies(w: World, cid: CmdId, ack: Ack, reply: Option<nat>, id: CmdId)
    ensures var n := Apply(w, cid, ack, reply);
      (Copied(n, id) ==> Copied(w, id)) && (n.exec.Some? ==> n.exec == w.exec) && n.account == w.account
  {
  }

  lemma ReceivedCopies(w: World, replay: seq<Down>, id: CmdId)
    requires Enabled(w, ServerReceives)
    ensures var n := Step(w, ServerReceives, replay);
      (Copied(n, id) ==> Copied(w, id) || (w.up[0].Login? && Names(replay, id)))
      && (n.exec.Some? ==> n.exec == w.exec) && n.account == w.account
  {
    var v := w.(up := w.up[1..]);
    match w.up[0]
    case UpAck(event, cid, ack) => AppliedCopies(v, cid, ack, Some(event), id);
    case UpReject(cid, ack) => AppliedCopies(v, cid, ack, if ack.error == Some(Failstop) then None else Some(0), id);
    case _ =>
  }

  lemma HandledCopies(w: World, id: CmdId)
    requires Enabled(w, AgentReceives)
    ensures var n := Step(w, AgentReceives, []);
      (Copied(n, id) ==> Copied(w, id)) && (n.exec == Some(id) ==> Copied(w, id)) && n.account == w.account
  {
    assert w.down[0] in w.down;
  }

  /** Where new copies come from, and which command is taken up. */
  lemma CopiesMove(w: World, e: Event, replay: seq<Down>, id: CmdId)
    requires Enabled(w, e)
    ensures var n := Step(w, e, replay);
      && (Copied(n, id) ==> Copied(w, id) || e == LiveSend(id) || (e.ServerReceives? && w.up[0].Login? && Names(replay, id)))
      && (n.exec == Some(id) ==> w.exec == Some(id) || Copied(w, id))
      && (Copied(n, id) || n.exec == Some(id) ==> n.account == w.account)
  {
    match e
    case ServerReceives => ReceivedCopies(w, replay, id);
    case AgentReceives => HandledCopies(w, id);
    case LiveSend(cid) =>
      assert forall m :: m in Step(w, e, replay).down ==> m in w.down || m == Deliver(cid, w.channel, w.db.commands[cid].expires);
    case _ =>
  }

  lemma HomeKeeps(w: World, e: Event, n: World, id: CmdId)
    requires Inv(w) && HomeOn(w, id) && Next(w, e, n) && SendsHome(w, e, id)
    ensures HomeOn(n, id)
  {
    var replay :| ReplayFor(w, e, replay) && n == Step(w, e, replay);
    CopiesMove(w, e, replay, id);
    if Mine(w, id) { RowFrozen(w, e, n, id); }
  }
}
