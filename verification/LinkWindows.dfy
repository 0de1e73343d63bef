/** Three concrete runs: a live send of a command already given up, a cancel that reaches another
    account, and an answer lost on the way to the record; and when each of them happens. */
module LinkWindows {
  import opened Common
  import opened Ledger
  import opened Buffers
  import opened AgentLink
  import opened Agreement
  import opened LinkResults
  import opened Verdicts

  // ---- Exactly when ----

  /** The converse: sending a command the server has given up on makes the ledgers diverge exactly when
      the agent is not refusing it. */
  lemma LateSendIsExact(w: World, id: CmdId, ack: Ack)
    requires Inv(w) && w.loggedIn && GivenUp(w, id) && w.exec == None && w.down == []
    ensures var sent := Step(w, LiveSend(id), []);
      var n := Step(Step(sent, AgentReceives, []), NativeAnswers(ack), []);
      && n.db == w.db
      && (id in n.buffer.ledger && n.buffer.ledger[id] == ack <==> !SendsSafe(w, LiveSend(id), id))
  {
  }

  /** A live send of a command runs under the session's account, which is the command's own
      exactly when the session has not changed account since the decision. */
  lemma LiveSendCrossesExactly(w: World, id: CmdId)
    requires Inv(w) && Enabled(w, LiveSend(id)) && w.exec == None && w.down == []
    requires id !in w.buffer.ledger && !Refused(w, id)
    ensures var n := Step(Step(w, LiveSend(id), []), AgentReceives, []);
      && n.exec == Some(id)
      && (n.db.commands[id].account == n.account <==> SendsHome(w, LiveSend(id), id))
  {
  }

  // ---- Concrete runs ----

  lemma NextBy(w: World, e: Event, replay: seq<Down>, n: World)
    requires Enabled(w, e) && ReplayFor(w, e, replay) && n == Step(w, e, replay)
    ensures Next(w, e, n)
  {
  }

  function Blank(): World {
    World(Db(map[], [], []), 1, false, false, 1, [], [], Empty, 1, false, 0, None, map[], map[], {}, {})
  }

  function Request(kind: Kind): Command {
    Command(kind, 1, 1, Sim, 1, None, None, 1, None, 100, false, false, None, None, false, None)
  }

  function Holding(c: Command): Db { Db(map[7 := c], [], []) }

  function Knocking(w: World): World { w.(linked := true, up := [Login(w.account)]) }

  function Inside(w: World): World { w.(linked := true, loggedIn := true, channel := w.account, up := []) }

  const Copy := Deliver(7, 1, 100)
  const Done := Ack(true, None, None)

  /** The first three steps of every run: connect, log in, decide. */
  lemma Opening(c: Command)
    requires c == Request(c.kind)
    ensures Next(Blank(), Connect, Knocking(Blank()))
    ensures Next(Knocking(Blank()), ServerReceives, Inside(Blank()))
    ensures Next(Inside(Blank()), ServerWrites(Holding(c)), Inside(Blank()).(db := Holding(c)))
  {
    NextBy(Blank(), Connect, [], Knocking(Blank()));
    NextBy(Knocking(Blank()), ServerReceives, [], Inside(Blank()));
    NextBy(Inside(Blank()), ServerWrites(Holding(c)), [], Inside(Blank()).(db := Holding(c)));
  }

  lemma OpeningLinked(worlds: seq<World>, events: seq<Event>, c: Command, i: nat)
    requires c == Request(c.kind) && i < 3 <= |events| && 4 <= |worlds|
    requires worlds[0] == Blank() && worlds[1] == Knocking(Blank()) && worlds[2] == Inside(Blank())
    requires worlds[3] == Inside(Blank()).(db := Holding(c))
    requires events[0] == Connect && events[1] == ServerReceives && events[2] == ServerWrites(Holding(c))
    ensures Linked(worlds, events, i)
  {
    Opening(c);
  }

  // ---- A late live send ----

  function LateSend(): seq<Event> {
    [Connect, ServerReceives, ServerWrites(Holding(Request(Place))), Drop, Connect, ServerReceives, Latch, AgentReceives,
     ServerReceives, Restart(1, false, 0), Connect, ServerReceives, LiveSend(7), AgentReceives, NativeAnswers(Done)]
  }

  function GivenUpRow(): Command { AckedRow(Request(Place), Refusal(Failstop)) }

  function LateSendWorlds(): seq<World> {
    var open := Blank().(db := Holding(Request(Place)));
    var shut := Blank().(db := Holding(GivenUpRow()));
    [Blank(), Knocking(Blank()), Inside(Blank()), Inside(open), open, Knocking(open), Inside(open).(down := [Copy]),
     Inside(open).(down := [Copy], latched := true),
     Inside(open).(up := [UpReject(7, Refusal(Failstop))], latched := true),
     Inside(shut).(latched := true), shut, Knocking(shut), Inside(shut), Inside(shut).(down := [Copy]),
     Inside(shut).(exec := Some(7), calls := map[7 := 1]),
     Inside(shut).(calls := map[7 := 1], buffer := Buffer(map[1 := Row(CmdAck(7, Done), 1, None)], 2, map[7 := Done]))]
  }

  lemma LateSendReplays()
    ensures var s := LateSendWorlds(); Next(s[3], Drop, s[4]) && Next(s[4], Connect, s[5]) && Next(s[5], ServerReceives, s[6])
  {
    var s := LateSendWorlds();
    NextBy(s[3], Drop, [], s[4]);
    NextBy(s[4], Connect, [], s[5]);
    assert IsReplay(s[5].db, 1, 1, [Copy]);
    NextBy(s[5], ServerReceives, [Copy], s[6]);
  }

  lemma LateSendRefuses()
    ensures var s := LateSendWorlds(); Next(s[6], Latch, s[7]) && Next(s[7], AgentReceives, s[8]) && Next(s[8], ServerReceives, s[9])
  {
    var s := LateSendWorlds();
    NextBy(s[6], Latch, [], s[7]);
    NextBy(s[7], AgentReceives, [], s[8]);
    AckWrites(s[8].db, 7, 1, Refusal(Failstop));
    assert ApplyAck(s[8].db, 7, 1, Refusal(Failstop)).0 == Holding(GivenUpRow());
    NextBy(s[8], ServerReceives, [], s[9]);
  }

  lemma LateSendRestarts()
    ensures var s := LateSendWorlds(); Next(s[9], Restart(1, false, 0), s[10])
  {
    var s := LateSendWorlds();
    assert PruneSent(Empty, 0) == Empty;
    NextBy(s[9], Restart(1, false, 0), [], s[10]);
  }

  lemma LateSendReopens()
    ensures var s := LateSendWorlds(); Next(s[10], Connect, s[11]) && Next(s[11], ServerReceives, s[12])
  {
    var s := LateSendWorlds();
    NextBy(s[10], Connect, [], s[11]);
    assert IsReplay(s[11].db, 1, 1, []);
    NextBy(s[11], ServerReceives, [], s[12]);
  }

  lemma LateSendRuns()
    ensures var s := LateSendWorlds(); Next(s[12], LiveSend(7), s[13]) && Next(s[13], AgentReceives, s[14]) && Next(s[14], NativeAnswers(Done), s[15])
  {
    var s := LateSendWorlds();
    NextBy(s[12], LiveSend(7), [], s[13]);
    NextBy(s[13], AgentReceives, [], s[14]);
    NextBy(s[14], NativeAnswers(Done), [], s[15]);
  }

  lemma LateSendBegins(i: nat)
    requires i < 3
    ensures Linked(LateSendWorlds(), LateSend(), i)
  {
    OpeningLinked(LateSendWorlds(), LateSend(), Request(Place), i);
  }

  lemma LateSendReturns(i: nat)
    requires 3 <= i < 6
    ensures Linked(LateSendWorlds(), LateSend(), i)
  {
    LateSendReplays();
  }

  lemma LateSendGoesOn(i: nat)
    requires 6 <= i < 12
    ensures Linked(LateSendWorlds(), LateSend(), i)
  {
    if i < 9 { LateSendRefuses(); }
    else if i == 9 { LateSendRestarts(); }
    else { LateSendReopens(); }
  }

  lemma LateSendEnds(i: nat)
    requires 12 <= i < 15
    ensures Linked(LateSendWorlds(), LateSend(), i)
  {
    LateSendRuns();
  }

  lemma LateSendLinked(i: nat)
    requires i < 15
    ensures Linked(LateSendWorlds(), LateSend(), i)
  {
    if i < 3 { LateSendBegins(i); }
    else if i < 6 { LateSendReturns(i); }
    else if i < 12 { LateSendGoesOn(i); }
    else { LateSendEnds(i); }
  }

  /** Without the guard the ledgers disagree: resolved by ack as an error, yet executed with success. */
  lemma LateSendDiverges()
    ensures Run(LateSendWorlds(), LateSend()) && !SendsSafe(LateSendWorlds()[12], LateSend()[12], 7)
    ensures var w := LateSendWorlds()[15];
      AckResolved(w.db.commands[7]) && w.db.commands[7].outcome == Some(OutError) && 7 in w.buffer.ledger && w.buffer.ledger[7].ok
  {
    forall i | 0 <= i < 15 ensures Linked(LateSendWorlds(), LateSend(), i) { LateSendLinked(i); }
  }

  // ---- A cancel that crosses accounts ----

  function Crossing(): seq<Event> {
    [Connect, ServerReceives, ServerWrites(Holding(Request(Cancel))), Restart(2, false, 0), Connect, ServerReceives, LiveSend(7), AgentReceives]
  }

  function CrossingWorlds(): seq<World> {
    var held := Blank().(db := Holding(Request(Cancel)));
    var moved := held.(account := 2);
    [Blank(), Knocking(Blank()), Inside(Blank()), Inside(held), moved, Knocking(moved), Inside(moved),
     Inside(moved).(down := [Deliver(7, 2, 100)]), Inside(moved).(exec := Some(7), calls := map[7 := 1])]
  }

  lemma CrossingMoves()
    ensures var s := CrossingWorlds(); Next(s[3], Restart(2, false, 0), s[4])
  {
    assert PruneSent(Empty, 0) == Empty;
    NextBy(CrossingWorlds()[3], Restart(2, false, 0), [], CrossingWorlds()[4]);
  }

  lemma CrossingLogsIn()
    ensures var s := CrossingWorlds(); Next(s[4], Connect, s[5]) && Next(s[5], ServerReceives, s[6])
  {
    var s := CrossingWorlds();
    NextBy(s[4], Connect, [], s[5]);
    assert IsReplay(s[5].db, 1, 2, []);
    NextBy(s[5], ServerReceives, [], s[6]);
  }

  lemma CrossingSends()
    ensures var s := CrossingWorlds(); Next(s[6], LiveSend(7), s[7]) && Next(s[7], AgentReceives, s[8])
  {
    var s := CrossingWorlds();
    NextBy(s[6], LiveSend(7), [], s[7]);
    NextBy(s[7], AgentReceives, [], s[8]);
  }

  lemma CrossingLinked(i: nat)
    requires i < 8
    ensures Linked(CrossingWorlds(), Crossing(), i)
  {
    if i < 3 { OpeningLinked(CrossingWorlds(), Crossing(), Request(Cancel), i); }
    else if i == 3 { CrossingMoves(); }
    else if i < 6 { CrossingLogsIn(); }
    else { CrossingSends(); }
  }

  /** An open cancel does not keep the next account out, and the live send labels it with that account. */
  lemma CancelReachesAnotherAccount()
    ensures Run(CrossingWorlds(), Crossing())
    ensures var w := CrossingWorlds()[8]; w.exec == Some(7) && w.account == 2 && w.db.commands[7].account == 1
  {
    forall i | 0 <= i < 8 ensures Linked(CrossingWorlds(), Crossing(), i) { CrossingLinked(i); }
  }

  // ---- An answer lost before its record ----

  function Twice(): seq<Event> {
    [Connect, ServerReceives, ServerWrites(Holding(Request(Place))), LiveSend(7), AgentReceives, Drop, Connect, ServerReceives, AgentReceives]
  }

  function TwiceWorlds(): seq<World> {
    var open := Blank().(db := Holding(Request(Place)));
    var once := open.(calls := map[7 := 1], lost := map[7 := 1]);
    [Blank(), Knocking(Blank()), Inside(Blank()), Inside(open), Inside(open).(down := [Copy]),
     Inside(open).(exec := Some(7), calls := map[7 := 1]), once, Knocking(once), Inside(once).(down := [Copy]),
     Inside(once).(exec := Some(7), calls := map[7 := 2])]
  }

  lemma TwiceLoses()
    ensures var s := TwiceWorlds(); Next(s[3], LiveSend(7), s[4]) && Next(s[4], AgentReceives, s[5]) && Next(s[5], Drop, s[6])
  {
    var s := TwiceWorlds();
    NextBy(s[3], LiveSend(7), [], s[4]);
    NextBy(s[4], AgentReceives, [], s[5]);
    NextBy(s[5], Drop, [], s[6]);
  }

  lemma TwiceReplays()
    ensures var s := TwiceWorlds(); Next(s[6], Connect, s[7]) && Next(s[7], ServerReceives, s[8])
  {
    var s := TwiceWorlds();
    NextBy(s[6], Connect, [], s[7]);
    assert IsReplay(s[7].db, 1, 1, [Copy]);
    NextBy(s[7], ServerReceives, [Copy], s[8]);
  }

  lemma TwiceRuns()
    ensures var s := TwiceWorlds(); Next(s[8], AgentReceives, s[9])
  {
    NextBy(TwiceWorlds()[8], AgentReceives, [], TwiceWorlds()[9]);
  }

  lemma TwiceLinked(i: nat)
    requires i < 9
    ensures Linked(TwiceWorlds(), Twice(), i)
  {
    if i < 3 { OpeningLinked(TwiceWorlds(), Twice(), Request(Place), i); }
    else if i < 6 { TwiceLoses(); }
    else if i < 8 { TwiceReplays(); }
    else { TwiceRuns(); }
  }

  /** The bound on native calls is met: one lost record, two calls, in a run that keeps every guard. */
  lemma LostAnswerRunsTwice()
    ensures Run(TwiceWorlds(), Twice()) && Safe(TwiceWorlds(), Twice(), 9, 7) && Home(TwiceWorlds(), Twice(), 9, 7)
    ensures Count(TwiceWorlds()[9].calls, 7) == 2
  {
    forall i | 0 <= i < 9 ensures Linked(TwiceWorlds(), Twice(), i) { TwiceLinked(i); }
  }
}
