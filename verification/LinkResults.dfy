/** The agent protocol over whole runs: agreement, at-most-once execution, scope, delivery of reports,
    convergence after a login, and the two windows the code leaves open. */
module LinkResults {
  import opened Common
  import opened Ledger
  import opened Buffers
  import opened AgentLink
  import opened Agreement
  import opened LinkSteps
  import opened Verdicts

  lemma {:induction false} InvOverRun(worlds: seq<World>, events: seq<Event>, n: nat)
    requires Run(worlds, events) && n < |worlds|
    ensures Inv(worlds[n])
  {
    if n > 0 {
      InvOverRun(worlds, events, n - 1);
      assert Linked(worlds, events, n - 1);
      StepKeeps(worlds[n - 1], events[n - 1], worlds[n]);
    }
  }

  // ---- Agreement ----

  /** So far in the run, live sends of the command after it was given up met an agent that refuses it. */
  ghost predicate Safe(worlds: seq<World>, events: seq<Event>, n: nat, id: CmdId)
    requires |worlds| == |events| + 1 && n < |worlds|
  {
    forall i :: 0 <= i < n ==> SendsSafe(worlds[i], events[i], id)
  }

  lemma {:induction false} AgreesOverRun(worlds: seq<World>, events: seq<Event>, n: nat, id: CmdId)
    requires Run(worlds, events) && n < |worlds| && Safe(worlds, events, n, id)
    ensures AgreesOn(worlds[n], id)
  {
    if n > 0 {
      AgreesOverRun(worlds, events, n - 1, id);
      InvOverRun(worlds, events, n - 1);
      assert Linked(worlds, events, n - 1);
      AgreementKeeps(worlds[n - 1], events[n - 1], worlds[n], id);
    }
  }

  /** Main result: in every such run a command the server resolved by an ack as ok was executed with
      success, and one it resolved by an ack as an error was not. */
  lemma LedgersAgree(worlds: seq<World>, events: seq<Event>, n: nat, id: CmdId)
    requires Run(worlds, events) && n < |worlds| && Safe(worlds, events, n, id) && Mine(worlds[n], id)
    requires AckResolved(worlds[n].db.commands[id])
    ensures var w := worlds[n]; var c := w.db.commands[id];
      && (c.outcome == Some(OutOk) || c.outcome == Some(OutError))
      && (c.outcome == Some(OutOk) <==> id in w.buffer.ledger && w.buffer.ledger[id].ok)
      && (c.outcome == Some(OutError) ==> id in w.buffer.ledger ==> ExplicitReject(w.buffer.ledger[id]))
  {
    AgreesOverRun(worlds, events, n, id);
  }

  lemma GivenUpStep(worlds: seq<World>, events: seq<Event>, i: nat, id: CmdId)
    requires Run(worlds, events) && i < |events| && Safe(worlds, events, i, id) && GivenUp(worlds[i], id)
    ensures GivenUp(worlds[i + 1], id) && Count(worlds[i + 1].calls, id) == Count(worlds[i].calls, id)
  {
    InvOverRun(worlds, events, i);
    AgreesOverRun(worlds, events, i, id);
    assert Linked(worlds, events, i);
    GivenUpStays(worlds[i], events[i], worlds[i + 1], id);
  }

  /** Once given up, a command is not executed in any later session or restart, until a live send of it
      meets an agent that does not refuse it. */
  lemma {:induction false} GivenUpIsNeverExecuted(worlds: seq<World>, events: seq<Event>, m: nat, n: nat, id: CmdId)
    requires Run(worlds, events) && m <= n < |worlds| && Safe(worlds, events, n, id) && GivenUp(worlds[m], id)
    ensures GivenUp(worlds[n], id) && Count(worlds[n].calls, id) == Count(worlds[m].calls, id)
    decreases n - m
  {
    if m < n {
      GivenUpIsNeverExecuted(worlds, events, m, n - 1, id);
      GivenUpStep(worlds, events, n - 1, id);
    }
  }

  // ---- At most once ----

  /** Native calls of a command are its ledger entry, the call under way, and the calls whose answer a
      lost connection or a crash swallowed before it was recorded: nothing else. */
  lemma CallsAreAccountedFor(worlds: seq<World>, events: seq<Event>, n: nat, id: CmdId)
    requires Run(worlds, events) && n < |worlds|
    ensures var w := worlds[n];
      Count(w.calls, id) == (if id in w.buffer.ledger then 1 else 0) + (if w.exec == Some(id) then 1 else 0) + Count(w.lost, id)
  {
    InvOverRun(worlds, events, n);
  }

  lemma RecordedIsNotCalled(w: World, e: Event, n: World, id: CmdId)
    requires Inv(w) && Next(w, e, n) && id in w.buffer.ledger
    ensures id in n.buffer.ledger && n.buffer.ledger[id] == w.buffer.ledger[id]
    ensures Count(n.calls, id) == Count(w.calls, id)
  {
    var replay :| ReplayFor(w, e, replay) && n == Step(w, e, replay);
    LocalStep(w, e, replay);
  }

  lemma RecordedStep(worlds: seq<World>, events: seq<Event>, i: nat, id: CmdId)
    requires Run(worlds, events) && i < |events| && id in worlds[i].buffer.ledger
    ensures id in worlds[i + 1].buffer.ledger && worlds[i + 1].buffer.ledger[id] == worlds[i].buffer.ledger[id]
    ensures Count(worlds[i + 1].calls, id) == Count(worlds[i].calls, id)
  {
    InvOverRun(worlds, events, i);
    assert Linked(worlds, events, i);
    RecordedIsNotCalled(worlds[i], events[i], worlds[i + 1], id);
  }

  /** Once recorded, a command is never passed to the broker again and its answer never changes. */
  lemma {:induction false} RecordedRunsOnce(worlds: seq<World>, events: seq<Event>, m: nat, n: nat, id: CmdId)
    requires Run(worlds, events) && m <= n < |worlds| && id in worlds[m].buffer.ledger
    ensures id in worlds[n].buffer.ledger && worlds[n].buffer.ledger[id] == worlds[m].buffer.ledger[id]
    ensures Count(worlds[n].calls, id) == Count(worlds[m].calls, id)
    decreases n - m
  {
    if m < n {
      RecordedRunsOnce(worlds, events, m, n - 1, id);
      RecordedStep(worlds, events, n - 1, id);
    }
  }

  // ---- Answers ----

  /** An answer to the command is on its way up. */
  ghost predicate Says(w: World, id: CmdId, ack: Ack) {
    exists u :: u in w.up && (u.UpAck? || u.UpReject?) && u.id == id && u.ack == ack
  }

  lemma OkIsRecorded(worlds: seq<World>, events: seq<Event>, n: nat, id: CmdId, ack: Ack)
    requires Run(worlds, events) && n < |worlds| && Says(worlds[n], id, ack) && ack.ok
    ensures id in worlds[n].buffer.ledger && worlds[n].buffer.ledger[id] == ack
  {
    InvOverRun(worlds, events, n);
  }

  /** All `ok` answers to one command, at any two moments of a run, are the same answer. */
  lemma OkAnswersAgree(worlds: seq<World>, events: seq<Event>, m: nat, n: nat, id: CmdId, a: Ack, b: Ack)
    requires Run(worlds, events) && m <= n < |worlds| && Says(worlds[m], id, a) && Says(worlds[n], id, b) && a.ok && b.ok
    ensures a == b
  {
    OkIsRecorded(worlds, events, m, id, a);
    OkIsRecorded(worlds, events, n, id, b);
    RecordedRunsOnce(worlds, events, m, n, id);
  }

  /** Once an `ok` answer is on its way, its row is never found resolved by ack as an error, as long as live sends
      of given-up commands met an agent that refuses them: then a route writes back over no rejection. */
  lemma OkAnswerMeetsOk(worlds: seq<World>, events: seq<Event>, m: nat, n: nat, id: CmdId, ack: Ack)
    requires Run(worlds, events) && m <= n < |worlds| && Safe(worlds, events, n, id) && Says(worlds[m], id, ack) && ack.ok
    requires Mine(worlds[n], id) && AckResolved(worlds[n].db.commands[id])
    ensures worlds[n].db.commands[id].outcome == Some(OutOk)
  {
    OkIsRecorded(worlds, events, m, id, ack);
    RecordedRunsOnce(worlds, events, m, n, id);
    LedgersAgree(worlds, events, n, id);
  }

  // ---- Scope ----

  ghost predicate Home(worlds: seq<World>, events: seq<Event>, n: nat, id: CmdId)
    requires |worlds| == |events| + 1 && n < |worlds|
  {
    forall i :: 0 <= i < n ==> SendsHome(worlds[i], events[i], id)
  }

  lemma {:induction false} HomeOverRun(worlds: seq<World>, events: seq<Event>, n: nat, id: CmdId)
    requires Run(worlds, events) && n < |worlds| && Home(worlds, events, n, id)
    ensures HomeOn(worlds[n], id)
  {
    if n > 0 {
      HomeOverRun(worlds, events, n - 1, id);
      InvOverRun(worlds, events, n - 1);
      assert Linked(worlds, events, n - 1);
      HomeKeeps(worlds[n - 1], events[n - 1], worlds[n], id);
    }
  }

  /** A command whose live sends went to its own account runs under that account. */
  lemma ExecutedUnderOwnAccount(worlds: seq<World>, events: seq<Event>, n: nat, id: CmdId)
    requires Run(worlds, events) && n < |worlds| && Home(worlds, events, n, id) && worlds[n].exec == Some(id)
    ensures var w := worlds[n]; Mine(w, id) && w.db.commands[id].account == w.account
  {
    InvOverRun(worlds, events, n);
    HomeOverRun(worlds, events, n, id);
  }

  /** For open placements and updates the login guard alone sees to that, in every run. */
  lemma OpenRiskIsOwnAccount(worlds: seq<World>, events: seq<Event>, n: nat, id: CmdId)
    requires Run(worlds, events) && n < |worlds| && Enabled(worlds[n], LiveSend(id))
    requires worlds[n].db.commands[id].kind != Cancel && !worlds[n].db.commands[id].resolved
    ensures worlds[n].db.commands[id].account == worlds[n].channel
  {
    InvOverRun(worlds, events, n);
    assert Mine(worlds[n], id);
  }

  /** A replay never reaches another account's session. */
  lemma ReplayStaysInScope(w: World, account: Account, replay: seq<Down>, m: Down)
    requires IsReplay(w.db, w.user, account, replay) && m in replay
    ensures m.Deliver? && Mine(w, m.id) && w.db.commands[m.id].account == account && m.account == account
    ensures !w.db.commands[m.id].resolved && !w.db.commands[m.id].acked
  {
  }

  // ---- Reports ----

  /** Every report whose append committed is waiting in the outbox or already in the server's inbox. */
  lemma NoReportIsLost(worlds: seq<World>, events: seq<Event>, n: nat, e: nat)
    requires Run(worlds, events) && n < |worlds| && e in worlds[n].appended
    ensures e in worlds[n].committed || (Unsent(worlds[n].buffer, e) && worlds[n].buffer.rows[e].body.Report?)
  {
    InvOverRun(worlds, events, n);
  }

  // ---- Convergence ----

  predicate Answering(w: World, id: CmdId) { exists u :: u in w.up && (u.UpAck? || u.UpReject?) && u.id == id }

  /** An answer to the command is on its way, at one stage or another. */
  predicate Awaiting(w: World, id: CmdId) {
    Copied(w, id) || w.exec == Some(id) || AckPending(w.buffer, id) || Answering(w, id)
  }

  predicate Settled(w: World, id: CmdId) { Mine(w, id) && (w.db.commands[id].acked || w.db.commands[id].resolved) }

  lemma {:induction false} MarkedElsewhere(b: Buffer, e: nat, now: int, id: CmdId)
    requires AckPending(b, id) && (e in b.rows ==> !UnsentAckOf(b, id, e))
    ensures AckPending(MarkSent(b, e, now), id)
  {
    var f :| f in b.rows && UnsentAckOf(b, id, f);
    assert UnsentAckOf(MarkSent(b, e, now), id, f);
  }

  lemma AckPendingKept(b: Buffer, n: Buffer, id: CmdId)
    requires AckPending(b, id) && forall e :: e in b.rows ==> e in n.rows && n.rows[e] == b.rows[e]
    ensures AckPending(n, id)
  {
  }

  /** The message taken off the downlink is about this command. */
  lemma HandledOwn(w: World, id: CmdId)
    requires Inv(w) && Enabled(w, AgentReceives) && w.down[0].Deliver? && w.down[0].id == id
    ensures Awaiting(Step(w, AgentReceives, []), id)
  {
    var n := Step(w, AgentReceives, []);
    if id in w.buffer.ledger {
      AckIfAbsentOk(w.buffer, id, w.account);
    } else if n.up != w.up {
      assert n.up[|w.up|] in n.up;
      assert Answering(n, id);
    }
  }

  lemma HandledAck(w: World, id: CmdId)
    requires EventsOk(w) && Enabled(w, AgentReceives) && w.down[0].ReportAck? && Mine(w, id) && AckPending(w.buffer, id)
    ensures AckPending(Step(w, AgentReceives, []).buffer, id) || Settled(w, id)
  {
    var m := w.down[0];
    assert m in w.down;
    if m.event in w.buffer.rows && UnsentAckOf(w.buffer, id, m.event) {
      assert Delivered(w, m.event);
    } else {
      MarkedElsewhere(w.buffer, m.event, w.now, id);
    }
  }

  lemma HandledOther(w: World, id: CmdId)
    requires BufferOk(w.buffer) && w.down != [] && w.linked && w.exec == None && !(w.down[0].Deliver? && w.down[0].id == id)
    ensures var n := Step(w, AgentReceives, []);
      && (Copied(w, id) ==> Copied(n, id))
      && (Answering(w, id) ==> Answering(n, id))
      && (AckPending(w.buffer, id) && w.down[0].Deliver? ==> AckPending(n.buffer, id))
  {
    var n := Step(w, AgentReceives, []);
    if Copied(w, id) {
      var x :| x in w.down && x.Deliver? && x.id == id;
      assert x in w.down[1..];
    }
    if Answering(w, id) {
      var u :| u in w.up && (u.UpAck? || u.UpReject?) && u.id == id;
      assert u in n.up;
    }
    if AckPending(w.buffer, id) && w.down[0].Deliver? { HandledKeepsRows(w, id); }
  }

  lemma HandledKeepsRows(w: World, id: CmdId)
    requires BufferOk(w.buffer) && w.down != [] && w.down[0].Deliver? && AckPending(w.buffer, id)
    ensures AckPending(Step(w, AgentReceives, []).buffer, id)
  {
    AckPendingKept(w.buffer, Step(w, AgentReceives, []).buffer, id);
  }

  lemma HandledStaysPending(w: World, id: CmdId)
    requires Inv(w) && Enabled(w, AgentReceives) && Mine(w, id) && Awaiting(w, id)
    ensures Awaiting(Step(w, AgentReceives, []), id) || Settled(w, id)
  {
    if w.down[0].Deliver? && w.down[0].id == id {
      HandledOwn(w, id);
    } else {
      HandledOther(w, id);
      if w.down[0].ReportAck? && AckPending(w.buffer, id) { HandledAck(w, id); }
    }
  }

  lemma AppliedSettles(w: World, id: CmdId, ack: Ack, reply: Option<nat>)
    requires Mine(w, id) && Apply(w, id, ack, reply).loggedIn
    ensures Settled(Apply(w, id, ack, reply), id)
  {
    if !Clashes(w.db, id, w.user, ack) { AckWrites(w.db, id, w.user, ack); }
  }

  lemma AppliedKeepsQueues(w: World, cid: CmdId, ack: Ack, reply: Option<nat>)
    requires Apply(w, cid, ack, reply).loggedIn
    ensures var n := Apply(w, cid, ack, reply);
      n.up == w.up && n.buffer == w.buffer && n.exec == w.exec && forall x :: x in w.down ==> x in n.down
  {
  }

  lemma ReceivedStaysPending(w: World, replay: seq<Down>, id: CmdId)
    requires Enabled(w, ServerReceives) && Mine(w, id) && Awaiting(w, id)
    requires Step(w, ServerReceives, replay).loggedIn
    ensures var n := Step(w, ServerReceives, replay); Awaiting(n, id) || Settled(n, id)
  {
    var n := Step(w, ServerReceives, replay);
    var v := w.(up := w.up[1..]);
    var u := w.up[0];
    if (u.UpAck? || u.UpReject?) && u.id == id {
      AppliedSettles(v, id, u.ack, if u.UpAck? then Some(u.event) else if u.ack.error == Some(Failstop) then None else Some(0));
    } else {
      if u.UpAck? { AppliedKeepsQueues(v, u.id, u.ack, Some(u.event)); }
      if u.UpReject? { AppliedKeepsQueues(v, u.id, u.ack, if u.ack.error == Some(Failstop) then None else Some(0)); }
      QueuesKeepAwaiting(w, n, id);
    }
  }

  /** Taking somebody else's message off the uplink leaves this command's answer under way. */
  lemma QueuesKeepAwaiting(w: World, n: World, id: CmdId)
    requires w.up != [] && !((w.up[0].UpAck? || w.up[0].UpReject?) && w.up[0].id == id) && Awaiting(w, id)
    requires n.up == w.up[1..] && n.buffer == w.buffer && n.exec == w.exec && forall x :: x in w.down ==> x in n.down
    ensures Awaiting(n, id)
  {
  }

  lemma AnswerIsPending(w: World, ack: Ack)
    requires BufferOk(w.buffer) && w.exec.Some? && w.exec.value !in w.buffer.ledger
    ensures AckPending(Step(w, NativeAnswers(ack), []).buffer, w.exec.value)
  {
    RecordOk(w.buffer, w.exec.value, ack, w.account);
  }

  lemma SideStepStaysPending(w: World, e: Event, id: CmdId)
    requires Inv(w) && Enabled(w, e) && Mine(w, id) && Awaiting(w, id)
    requires e.LiveSend? || e.NativeAnswers? || e.Pump? || e.Callback? || e.ServerWrites? || e.Latch? || e.Tick?
    ensures Awaiting(Step(w, e, []), id)
  {
    var n := Step(w, e, []);
    if e.NativeAnswers? && w.exec == Some(id) {
      AnswerIsPending(w, e.ack);
    } else {
      SideStepQueues(w, e);
      QueuesGrow(w, n, id);
    }
  }

  /** These steps take nothing off a queue and nothing out of the outbox. */
  lemma SideStepQueues(w: World, e: Event)
    requires Inv(w) && Enabled(w, e)
    requires e.LiveSend? || e.NativeAnswers? || e.Pump? || e.Callback? || e.ServerWrites? || e.Latch? || e.Tick?
    ensures var n := Step(w, e, []);
      && w.down <= n.down && w.up <= n.up && (n.exec == w.exec || e.NativeAnswers?)
      && forall x :: x in w.buffer.rows ==> x in n.buffer.rows && n.buffer.rows[x] == w.buffer.rows[x]
  {
  }

  lemma QueuesGrow(w: World, n: World, id: CmdId)
    requires Awaiting(w, id) && w.down <= n.down && w.up <= n.up && (w.exec == Some(id) ==> n.exec == w.exec)
    requires forall x :: x in w.buffer.rows ==> x in n.buffer.rows && n.buffer.rows[x] == w.buffer.rows[x]
    ensures Awaiting(n, id)
  {
  }

  lemma PendingUntilSettled(w: World, e: Event, n: World, id: CmdId)
    requires Inv(w) && Next(w, e, n) && Mine(w, id) && w.loggedIn && n.loggedIn && (Awaiting(w, id) || Settled(w, id))
    ensures Mine(n, id) && (Awaiting(n, id) || Settled(n, id))
  {
    RowFrozen(w, e, n, id);
    if !Settled(w, id) {
      var replay :| ReplayFor(w, e, replay) && n == Step(w, e, replay);
      match e
      case AgentReceives => HandledStaysPending(w, id);
      case ServerReceives => ReceivedStaysPending(w, replay, id);
      case Connect =>
      case Drop =>
      case Restart(_, _, _) =>
      case _ => SideStepStaysPending(w, e, id);
    }
  }

  /** Nothing is under way any more. */
  ghost predicate Quiet(w: World) {
    w.down == [] && w.up == [] && w.exec == None && forall e :: Unsent(w.buffer, e) ==> w.buffer.rows[e].body.Report?
  }

  lemma PendingStep(worlds: seq<World>, events: seq<Event>, i: nat, id: CmdId)
    requires Run(worlds, events) && i < |events| && worlds[i].loggedIn && worlds[i + 1].loggedIn
    requires Mine(worlds[i], id) && (Awaiting(worlds[i], id) || Settled(worlds[i], id))
    ensures Mine(worlds[i + 1], id) && (Awaiting(worlds[i + 1], id) || Settled(worlds[i + 1], id))
  {
    InvOverRun(worlds, events, i);
    assert Linked(worlds, events, i);
    PendingUntilSettled(worlds[i], events[i], worlds[i + 1], id);
  }

  lemma {:induction false} PendingOverSession(worlds: seq<World>, events: seq<Event>, m: nat, n: nat, id: CmdId)
    requires Run(worlds, events) && m <= n < |worlds|
    requires forall i :: m <= i <= n ==> worlds[i].loggedIn
    requires Mine(worlds[m], id) && (Awaiting(worlds[m], id) || Settled(worlds[m], id))
    ensures Mine(worlds[n], id) && (Awaiting(worlds[n], id) || Settled(worlds[n], id))
    decreases n - m
  {
    if m < n {
      PendingOverSession(worlds, events, m, n - 1, id);
      PendingStep(worlds, events, n - 1, id);
    }
  }

  /** One undisturbed session: once it is quiet again, every command that was open for this user and
      account at the login is acknowledged, or was resolved by other means, and each is resolved or
      honestly unknown, whatever else happened in between. */
  lemma OneSessionConverges(worlds: seq<World>, events: seq<Event>, m: nat, n: nat, id: CmdId)
    requires Run(worlds, events) && m < n < |worlds|
    requires events[m].ServerReceives? && worlds[m].up != [] && worlds[m].up[0].Login? && !worlds[m].loggedIn
    requires forall i :: m < i <= n ==> worlds[i].loggedIn
    requires Mine(worlds[m], id) && worlds[m].db.commands[id].account == worlds[m + 1].channel
    requires Quiet(worlds[n])
    ensures Mine(worlds[n], id)
    ensures var c := worlds[n].db.commands[id];
      && (c.acked || (c.resolved && c.via != Some(ByAck)))
      && (c.resolved || c.outcome == Some(OutUnknown))
  {
    assert Linked(worlds, events, m);
    LoginQueues(worlds[m], worlds[m + 1], id);
    PendingOverSession(worlds, events, m + 1, n, id);
    QuietIsSettled(worlds[n], id);
    AckedIsDecided(worlds, events, n, id);
    if AckResolved(worlds[n].db.commands[id]) { AckedByAck(worlds, events, n, id); }
  }

  lemma QuietIsSettled(w: World, id: CmdId)
    requires Quiet(w) && (Awaiting(w, id) || Settled(w, id))
    ensures Settled(w, id)
  {
  }

  lemma AckedIsDecided(worlds: seq<World>, events: seq<Event>, n: nat, id: CmdId)
    requires Run(worlds, events) && n < |worlds| && Mine(worlds[n], id)
    ensures var c := worlds[n].db.commands[id]; c.acked ==> c.resolved || c.outcome == Some(OutUnknown)
  {
    InvOverRun(worlds, events, n);
  }

  lemma LoginQueues(w: World, n: World, id: CmdId)
    requires Next(w, ServerReceives, n) && w.up != [] && w.up[0].Login? && n.loggedIn && !w.loggedIn
    requires Mine(w, id) && w.db.commands[id].account == n.channel
    ensures Mine(n, id) && (Awaiting(n, id) || Settled(n, id))
  {
  }

  lemma AckedStep(w: World, e: Event, n: World, id: CmdId)
    requires Next(w, e, n) && Mine(n, id) && AckResolved(n.db.commands[id])
    requires Mine(w, id) && AckResolved(w.db.commands[id]) ==> w.db.commands[id].acked
    ensures n.db.commands[id].acked
  {
    var replay :| ReplayFor(w, e, replay) && n == Step(w, e, replay);
    if e.ServerReceives? {
      var cid, ack := ReceivedRow(w, replay);
      ReceivedLocal(w, replay);
    } else if e.ServerWrites? {
      assert EnvWrite(w, e.db);
    } else {
      OtherRows(w, e, replay);
    }
  }

  /** Only an applied ack resolves a row by ack. */
  lemma {:induction false} AckedByAck(worlds: seq<World>, events: seq<Event>, n: nat, id: CmdId)
    requires Run(worlds, events) && n < |worlds| && Mine(worlds[n], id) && AckResolved(worlds[n].db.commands[id])
    ensures worlds[n].db.commands[id].acked
  {
    if n > 0 {
      var w := worlds[n - 1];
      if Mine(w, id) && AckResolved(w.db.commands[id]) { AckedByAck(worlds, events, n - 1, id); }
      assert Linked(worlds, events, n - 1);
      AckedStep(w, events[n - 1], worlds[n], id);
    }
  }
}
