/** One command, many settlers: acks and resolvers whose read, transport write and business write are
    separate statements, interleaved in any order. */
module Race {
  import opened Common
  import opened Ledger

  datatype Actor =
    | Acker(user: UserId, ack: Ack)
    | Querier(realQty: Option<int>)     // the watchdog, or the report worker with no quantity
    | Reporter                          // the cancel resolver

  /** What an actor has seen so far. */
  datatype Phase =
    | Idle
    | HasRead(row: Command)
    | Looking(row: Command, order: Option<Order>)
    | Carrying(row: Command)            // won the transport write
    | Finished(won: bool)

  datatype Race = Race(db: Db, phases: map<nat, Phase>, winner: Option<nat>, sleeper: Option<nat>)

  /** The same actor running alone, in one piece. */
  function Solo(db: Db, id: CmdId, a: Actor): Db {
    match a
    case Acker(user, ack) => ApplyAck(db, id, user, ack).0
    case Querier(realQty) => ResolveUpdate(db, id, realQty).0
    case Reporter => ResolveCancel(db, id).0
  }

  function OrderSeen(db: Db, c: Command): Option<Order> {
    var i := FindCommandOrder(db, c);
    if i < |db.orders| then Some(db.orders[i]) else None
  }

  function Read(db: Db, id: CmdId, a: Actor): Phase {
    if id !in db.commands then Finished(false)
    else
      var c := db.commands[id];
      match a
      case Acker(user, _) => if c.user != user then Finished(false) else HasRead(c)
      case Querier(_) =>
        if c.kind == Update && c.outcome == Some(OutUnknown) && !c.resolved then Looking(c, OrderSeen(db, c)) else Finished(false)
      case Reporter => if c.kind == Cancel && !c.resolved then Looking(c, OrderSeen(db, c)) else Finished(false)
  }

  /** The transport write: only the first ack of a command gets past it. */
  function Mark(db: Db, id: CmdId, row: Command): (Db, Phase) {
    if id in db.commands && !db.commands[id].acked then
      (db.(commands := db.commands[id := db.commands[id].(acked := true)]), Carrying(row))
    else (db, Finished(false))
  }

  /** The business write of an ack, deciding from the row it read at the start. */
  function Business(db: Db, id: CmdId, row: Command, ack: Ack): (Db, bool) {
    if row.resolved || id !in db.commands then (db, false)
    else if ack.ok then
      if row.kind == Place && OrdnoTaken(db.orders, row.client, ack.ordno) then
        (db.(commands := db.commands[id := db.commands[id].(acked := false)]), false)
      else
        var (commands, won) := CasResolve(db.commands, id, OutOk, ByAck, ack.ordno);
        (if won then OkEffects(db.(commands := commands), row, ack) else db, won)
    else if ExplicitReject(ack) then
      var (commands, won) := CasResolve(db.commands, id, OutError, ByAck, None);
      (if won then RejectEffects(db.(commands := commands), row) else db, won)
    else (TimeoutEffects(db.(commands := db.commands[id := db.commands[id].(outcome := Some(OutUnknown))]), row), false)
  }

  /** The business write of a resolver, deciding from the row and order it read. */
  function Resolve(db: Db, id: CmdId, a: Actor, row: Command, order: Option<Order>): (Db, bool)
    requires !a.Acker?
  {
    var i := FindCommandOrder(db, row);
    if row.ordno.None? || order.None? || i == |db.orders| then (db, false)
    else if a.Reporter? then
      if !TerminalForResolver(order.value.status) then (db, false)
      else
        var (commands, won) := CasResolve(db.commands, id, OutUnknown, ByReport, None);
        (db.(commands := commands), won)
    else
      match Decide(order.value, row, a.realQty)
      case ConfirmedByQty =>
        var (commands, won) := CasResolve(db.commands, id, OutOk, ByQuery, None);
        (if won then Db(commands, db.orders[i := UpdateAckOrder(db.orders[i], row.price, row.qty)],
                        SettleOpt(db.quotas, row.reservation, Confirmed)) else db, won)
      case ReleasedByQty =>
        var (commands, won) := CasResolve(db.commands, id, OutError, ByQuery, None);
        (if won then db.(commands := commands, quotas := SettleOpt(db.quotas, row.reservation, Released)) else db, won)
      case ConservativelyConfirmed =>
        var (commands, won) := CasResolve(db.commands, id, OutUnknown, ByReport, None);
        (if won then db.(commands := commands, quotas := SettleOpt(db.quotas, row.reservation, Confirmed)) else db, won)
      case LeftPending => (db, false)
  }

  function Step(r: Race, id: CmdId, team: map<nat, Actor>, a: nat): Race
    requires a in team && a in r.phases
  {
    match r.phases[a]
    case Idle => r.(phases := r.phases[a := Read(r.db, id, team[a])])
    case HasRead(row) =>
      var (db, phase) := Mark(r.db, id, row);
      r.(db := db, phases := r.phases[a := phase])
    case Carrying(row) =>
      if !team[a].Acker? then r
      else
        var (db, won) := Business(r.db, id, row, team[a].ack);
        Race(db, r.phases[a := Finished(won)], if won then Some(a) else r.winner,
             if Unsettled(row, team[a].ack) then Some(a) else r.sleeper)
    case Looking(row, order) =>
      if team[a].Acker? then r
      else
        var (db, won) := Resolve(r.db, id, team[a], row, order);
        Race(db, r.phases[a := Finished(won)], if won then Some(a) else r.winner, r.sleeper)
    case Finished(_) => r
  }

  /** The ack leaves the command open. */
  predicate Unsettled(row: Command, ack: Ack) { !row.resolved && !ack.ok && !ExplicitReject(ack) }

  function Begin(db: Db, team: map<nat, Actor>): Race {
    Race(db, map a | a in team :: Idle, None, None)
  }

  /** Any interleaving from some point on: the schedule names whose statement runs next. */
  function Resume(r: Race, id: CmdId, team: map<nat, Actor>, schedule: seq<nat>): (n: Race)
    requires r.phases.Keys == team.Keys && forall j :: 0 <= j < |schedule| ==> schedule[j] in team
    ensures n.phases.Keys == team.Keys
  {
    if schedule == [] then r
    else Step(Resume(r, id, team, schedule[..|schedule| - 1]), id, team, schedule[|schedule| - 1])
  }

  function Interleave(db: Db, id: CmdId, team: map<nat, Actor>, schedule: seq<nat>): Race
    requires forall j :: 0 <= j < |schedule| ==> schedule[j] in team
  {
    Resume(Begin(db, team), id, team, schedule)
  }

  predicate SameVerdict(c: Command, n: Command) {
    c.resolved == n.resolved && c.outcome == n.outcome && c.via == n.via && c.resultOrdno == n.resultOrdno
  }

  predicate SameTables(db: Db, n: Db) { db.orders == n.orders && db.quotas == n.quotas }

  /** A fresh command, not heard of yet. */
  predicate Fresh(db: Db, id: CmdId) {
    id in db.commands && !db.commands[id].resolved && !db.commands[id].acked && db.commands[id].outcome == None
  }

  // ---- Invariant ----

  /** The request part of a row never changes. */
  predicate RowSeen(c: Command, row: Command) {
    row == c.(acked := row.acked, outcome := row.outcome, via := row.via, resolved := row.resolved, resultOrdno := row.resultOrdno)
  }

  /** An ack has been applied, or has left the command open: no later ack gets past the transport write. */
  predicate Spoken(team: map<nat, Actor>, r: Race) {
    r.sleeper.Some? || (r.winner.Some? && r.winner.value in team && !team[r.winner.value].Reporter?)
  }

  predicate PhaseOk(db: Db, id: CmdId, team: map<nat, Actor>, r: Race, a: nat)
    requires id in db.commands && id in r.db.commands && a in team && a in r.phases
  {
    var c := db.commands[id];
    match r.phases[a]
    case Idle => true
    case HasRead(row) => team[a].Acker? && row.user == team[a].user && RowSeen(c, row) && (row.resolved ==> r.winner.Some?)
    case Carrying(row) =>
      team[a].Acker? && row.user == team[a].user && RowSeen(c, row) && r.db.commands[id].acked && !Spoken(team, r)
      && (row.resolved ==> r.winner.Some?)
    case Looking(row, order) =>
      !team[a].Acker? && RowSeen(c, row) && order == OrderSeen(db, c)
      && c.kind == (if team[a].Reporter? then Cancel else Update) && (team[a].Querier? ==> r.sleeper.Some?)
    case Finished(won) => won ==> r.winner == Some(a)
  }

  ghost predicate OneCarrier(r: Race) {
    forall a, b | a in r.phases && b in r.phases && r.phases[a].Carrying? && r.phases[b].Carrying? :: a == b
  }

  predicate Settled(db: Db, id: CmdId, team: map<nat, Actor>, r: Race)
    requires id in db.commands && id in r.db.commands
  {
    match r.winner
    case None =>
      && !r.db.commands[id].resolved
      && (r.sleeper == None ==> SameTables(r.db, db) && r.db.commands[id].outcome == None)
      && (r.sleeper.Some? ==> r.sleeper.value in team && SameTables(r.db, Solo(db, id, team[r.sleeper.value])))
      && (db.commands[id].kind != Place ==> SameTables(r.db, db))
    case Some(w) =>
      && w in team && w in r.phases && r.phases[w] == Finished(true) && r.db.commands[id].resolved
      && (team[w].Reporter? ==> db.commands[id].kind == Cancel)
      && SameTables(r.db, Solo(db, id, team[w]))
      && id in Solo(db, id, team[w]).commands && SameVerdict(r.db.commands[id], Solo(db, id, team[w]).commands[id])
  }

  ghost predicate J(db: Db, id: CmdId, team: map<nat, Actor>, r: Race) {
    && id in db.commands && id in r.db.commands && RowSeen(db.commands[id], r.db.commands[id])
    && r.phases.Keys == team.Keys
    && (forall a :: a in team ==> PhaseOk(db, id, team, r, a))
    && OneCarrier(r) && Settled(db, id, team, r)
    && (Spoken(team, r) ==> r.db.commands[id].acked)
  }

  // ---- Every statement keeps it ----

  lemma ReadKeeps(db: Db, id: CmdId, team: map<nat, Actor>, r: Race, a: nat)
    requires J(db, id, team, r) && Fresh(db, id) && a in team && r.phases[a].Idle?
    ensures J(db, id, team, Step(r, id, team, a))
  {
  }

  lemma MarkKeeps(db: Db, id: CmdId, team: map<nat, Actor>, r: Race, a: nat)
    requires J(db, id, team, r) && a in team && r.phases[a].HasRead?
    ensures J(db, id, team, Step(r, id, team, a))
  {
  }

  /** What the carrying ack writes is what it would have written alone. */
  lemma BusinessIsSolo(db: Db, now: Db, id: CmdId, row: Command, user: UserId, ack: Ack)
    requires Fresh(db, id) && id in now.commands && RowSeen(db.commands[id], row) && RowSeen(db.commands[id], now.commands[id])
    requires row.user == user && !row.resolved && now.commands[id].acked && !now.commands[id].resolved && SameTables(now, db)
    requires now.commands[id].outcome == None
    ensures var (next, won) := Business(now, id, row, ack); var solo := Solo(db, id, Acker(user, ack));
      && SameTables(next, solo) && id in next.commands && id in solo.commands
      && (won ==> SameVerdict(next.commands[id], solo.commands[id]) && next.commands[id].resolved && next.commands[id].acked)
      && (!won ==> !next.commands[id].resolved)
  {
  }

  /** An ack that carries on after a cancel resolver has won changes nothing. */
  lemma BusinessAfterReporter(db: Db, now: Db, id: CmdId, row: Command, ack: Ack)
    requires id in db.commands && id in now.commands && RowSeen(db.commands[id], row) && db.commands[id].kind == Cancel
    requires now.commands[id].resolved && now.commands[id].outcome == Some(OutUnknown)
    ensures Business(now, id, row, ack) == (now, false)
  {
    assert now.commands[id := now.commands[id].(outcome := Some(OutUnknown))] == now.commands;
  }

  lemma ReporterVerdict(db: Db, id: CmdId)
    requires Fresh(db, id)
    ensures id in ResolveCancel(db, id).0.commands
    ensures ResolveCancel(db, id).0.commands[id].resolved ==> ResolveCancel(db, id).0.commands[id].outcome == Some(OutUnknown)
  {
  }

  /** One actor has finished; the others are where they were. */
  predicate Moved(db: Db, id: CmdId, r: Race, n: Race, a: nat) {
    && id in db.commands && id in r.db.commands && id in n.db.commands && RowSeen(db.commands[id], n.db.commands[id])
    && a in n.phases && n.phases[a].Finished? && n.phases == r.phases[a := n.phases[a]]
    && (r.winner.Some? ==> n.winner == r.winner) && (n.phases[a].won ==> n.winner == Some(a))
    && (r.sleeper.Some? ==> n.sleeper.Some?)
  }

  lemma OthersKeepPhase(db: Db, id: CmdId, team: map<nat, Actor>, r: Race, n: Race, a: nat)
    requires J(db, id, team, r) && a in team && Moved(db, id, r, n, a)
    requires r.phases[a].Carrying? || (n.db.commands[id].acked == r.db.commands[id].acked && (Spoken(team, n) ==> Spoken(team, r)))
    requires n.winner != r.winner ==> n.winner == Some(a) && n.phases[a] == Finished(true)
    ensures n.phases.Keys == team.Keys && OneCarrier(n) && forall b :: b in team ==> PhaseOk(db, id, team, n, b)
  {
    forall b | b in team ensures PhaseOk(db, id, team, n, b) {
      assert PhaseOk(db, id, team, r, b);
    }
  }

  lemma CarryKeeps(db: Db, id: CmdId, team: map<nat, Actor>, r: Race, a: nat)
    requires J(db, id, team, r) && Fresh(db, id) && a in team && r.phases[a].Carrying?
    ensures J(db, id, team, Step(r, id, team, a))
  {
    CarrySettles(db, id, team, r, a);
    OthersKeepPhase(db, id, team, r, Step(r, id, team, a), a);
  }

  /** The carrying ack's write leaves the row, its winner and the tables consistent. */
  lemma CarrySettles(db: Db, id: CmdId, team: map<nat, Actor>, r: Race, a: nat)
    requires J(db, id, team, r) && Fresh(db, id) && a in team && r.phases[a].Carrying?
    ensures var n := Step(r, id, team, a);
      && Moved(db, id, r, n, a) && Settled(db, id, team, n) && (Spoken(team, n) ==> n.db.commands[id].acked)
      && (n.winner != r.winner ==> n.phases[a] == Finished(true))
  {
    assert PhaseOk(db, id, team, r, a);
    var row, ack := r.phases[a].row, team[a].ack;
    if r.winner == None {
      if !row.resolved {
        BusinessIsSolo(db, r.db, id, row, team[a].user, ack);
        KindTables(db, id, row, team[a].user, ack);
      }
    } else {
      ReporterVerdict(db, id);
      BusinessAfterReporter(db, r.db, id, row, ack);
    }
  }

  /** An ack that leaves a cancel or an update open, or that is rolled back, leaves the tables alone. */
  lemma KindTables(db: Db, id: CmdId, row: Command, user: UserId, ack: Ack)
    requires Fresh(db, id) && RowSeen(db.commands[id], row) && row.user == user
    ensures Unsettled(row, ack) && row.kind != Place ==> SameTables(Solo(db, id, Acker(user, ack)), db)
    ensures ack.ok && row.kind == Place && OrdnoTaken(db.orders, row.client, ack.ordno) ==>
              SameTables(Solo(db, id, Acker(user, ack)), db)
  {
  }

  /** A resolver that gets to write, writes what it would have written alone. */
  lemma ResolveIsSolo(db: Db, now: Db, id: CmdId, a: Actor, row: Command)
    requires Fresh(db, id) && id in now.commands && !a.Acker? && RowSeen(db.commands[id], row) && SameTables(now, db)
    requires RowSeen(db.commands[id], now.commands[id])
    requires db.commands[id].kind == (if a.Reporter? then Cancel else Update)
    ensures var (next, won) := Resolve(now, id, a, row, OrderSeen(db, db.commands[id])); var solo := Solo(db, id, a);
      && id in next.commands && id in solo.commands && next.commands[id].acked == now.commands[id].acked
      && (won ==> !now.commands[id].resolved && SameTables(next, solo) && SameVerdict(next.commands[id], solo.commands[id])
                  && next.commands[id].resolved)
      && (!won ==> next == now)
  {
  }

  lemma LookKeeps(db: Db, id: CmdId, team: map<nat, Actor>, r: Race, a: nat)
    requires J(db, id, team, r) && Fresh(db, id) && a in team && r.phases[a].Looking?
    ensures J(db, id, team, Step(r, id, team, a))
  {
    LookSettles(db, id, team, r, a);
    OthersKeepPhase(db, id, team, r, Step(r, id, team, a), a);
  }

  /** A resolver's write leaves the row, its winner and the tables consistent. */
  lemma LookSettles(db: Db, id: CmdId, team: map<nat, Actor>, r: Race, a: nat)
    requires J(db, id, team, r) && Fresh(db, id) && a in team && r.phases[a].Looking?
    ensures var n := Step(r, id, team, a);
      && Moved(db, id, r, n, a) && Settled(db, id, team, n)
      && n.db.commands[id].acked == r.db.commands[id].acked && (Spoken(team, n) ==> Spoken(team, r))
      && (n.winner != r.winner ==> n.phases[a] == Finished(true))
  {
    assert PhaseOk(db, id, team, r, a);
    var row := r.phases[a].row;
    if r.winner == None {
      ResolveIsSolo(db, r.db, id, team[a], row);
    } else {
      ResolveAfterWinner(r.db, id, team[a], row, r.phases[a].order);
    }
  }

  lemma ResolveAfterWinner(now: Db, id: CmdId, a: Actor, row: Command, order: Option<Order>)
    requires id in now.commands && now.commands[id].resolved && !a.Acker?
    ensures Resolve(now, id, a, row, order) == (now, false)
  {
  }

  lemma StepKeeps(db: Db, id: CmdId, team: map<nat, Actor>, r: Race, a: nat)
    requires J(db, id, team, r) && Fresh(db, id) && a in team
    ensures J(db, id, team, Step(r, id, team, a))
  {
    match r.phases[a]
    case Idle => ReadKeeps(db, id, team, r, a);
    case HasRead(_) => MarkKeeps(db, id, team, r, a);
    case Carrying(_) => CarryKeeps(db, id, team, r, a); assert PhaseOk(db, id, team, r, a);
    case Looking(_, _) => LookKeeps(db, id, team, r, a);
    case Finished(_) =>
  }

  lemma {:induction false} InterleaveKeeps(db: Db, id: CmdId, team: map<nat, Actor>, schedule: seq<nat>)
    requires Fresh(db, id) && forall j :: 0 <= j < |schedule| ==> schedule[j] in team
    ensures J(db, id, team, Interleave(db, id, team, schedule))
  {
    if schedule != [] {
      var before := schedule[..|schedule| - 1];
      InterleaveKeeps(db, id, team, before);
      StepKeeps(db, id, team, Interleave(db, id, team, before), schedule[|schedule| - 1]);
    }
  }

  // ---- Main results ----

  /** At most one settler wins; the row is resolved exactly when someone has won; the row's verdict, the
      orders and the reservations are then what that settler alone would have left. */
  lemma OneWinner(db: Db, id: CmdId, team: map<nat, Actor>, schedule: seq<nat>)
    requires Fresh(db, id) && forall j :: 0 <= j < |schedule| ==> schedule[j] in team
    ensures var r := Interleave(db, id, team, schedule);
      && id in r.db.commands
      && (forall a, b | a in team && b in team && r.phases[a] == Finished(true) && r.phases[b] == Finished(true) :: a == b)
      && (r.db.commands[id].resolved <==> exists a :: a in team && r.phases[a] == Finished(true))
      && (forall a :: a in team && r.phases[a] == Finished(true) ==>
            && SameTables(r.db, Solo(db, id, team[a]))
            && id in Solo(db, id, team[a]).commands
            && SameVerdict(r.db.commands[id], Solo(db, id, team[a]).commands[id]))
  {
    InterleaveKeeps(db, id, team, schedule);
    var r := Interleave(db, id, team, schedule);
    forall a | a in team && r.phases[a] == Finished(true) ensures r.winner == Some(a) {
      assert PhaseOk(db, id, team, r, a);
    }
  }

  /** Without a winner nothing is touched, except that a placement whose ack said neither yes nor no
      leaves its order marked as that ack alone would. */
  lemma LosersTouchNothing(db: Db, id: CmdId, team: map<nat, Actor>, schedule: seq<nat>)
    requires Fresh(db, id) && forall j :: 0 <= j < |schedule| ==> schedule[j] in team
    ensures var r := Interleave(db, id, team, schedule);
      id in r.db.commands && !r.db.commands[id].resolved ==>
        || SameTables(r.db, db)
        || (db.commands[id].kind == Place && r.sleeper.Some? && r.sleeper.value in team
            && SameTables(r.db, Solo(db, id, team[r.sleeper.value])))
  {
    InterleaveKeeps(db, id, team, schedule);
  }

  lemma FinishedStays(r: Race, id: CmdId, team: map<nat, Actor>, a: nat, b: nat)
    requires a in team && a in r.phases && b in r.phases && r.phases[b].Finished?
    ensures b in Step(r, id, team, a).phases && Step(r, id, team, a).phases[b] == r.phases[b]
  {
  }

  /** Once resolved, no later statement of anyone changes the verdict, the orders or the reservations. */
  lemma {:induction false} VerdictIsFinal(db: Db, id: CmdId, team: map<nat, Actor>, schedule: seq<nat>, n: nat)
    requires Fresh(db, id) && (forall j :: 0 <= j < |schedule| ==> schedule[j] in team) && n <= |schedule|
    ensures var mid := Interleave(db, id, team, schedule[..n]); var r := Interleave(db, id, team, schedule);
      id in mid.db.commands && mid.db.commands[id].resolved ==>
        && id in r.db.commands && SameVerdict(r.db.commands[id], mid.db.commands[id]) && SameTables(r.db, mid.db)
        && r.winner == mid.winner
    decreases |schedule|
  {
    InterleaveKeeps(db, id, team, schedule);
    if n == |schedule| {
      assert schedule[..n] == schedule;
    } else {
      var before := schedule[..|schedule| - 1];
      assert before[..n] == schedule[..n];
      VerdictIsFinal(db, id, team, before, n);
      InterleaveKeeps(db, id, team, before);
      var r := Interleave(db, id, team, before);
      if r.winner.Some? {
        var w := r.winner.value;
        FinishedStays(r, id, team, schedule[|schedule| - 1], w);
        assert PhaseOk(db, id, team, Interleave(db, id, team, schedule), w);
      }
    }
  }

  // ---- Somebody does win ----

  /** No ack of the team is refused by the unique broker number. */
  predicate NoClash(db: Db, id: CmdId, team: map<nat, Actor>) {
    id in db.commands && (db.commands[id].kind == Place ==>
      forall a :: a in team && team[a].Acker? && team[a].ack.ok ==> !OrdnoTaken(db.orders, db.commands[id].client, team[a].ack.ordno))
  }

  ghost predicate Progress(db: Db, id: CmdId, team: map<nat, Actor>, r: Race)
    requires id in db.commands && id in r.db.commands
  {
    && (r.db.commands[id].acked ==> r.db.commands[id].resolved || r.sleeper.Some? || exists a :: a in r.phases && r.phases[a].Carrying?)
    && forall a | a in team && a in r.phases && team[a].Acker? && team[a].user == db.commands[id].user && r.phases[a].Finished? ::
         r.db.commands[id].acked
  }

  lemma ProgressStep(db: Db, id: CmdId, team: map<nat, Actor>, r: Race, a: nat)
    requires J(db, id, team, r) && Fresh(db, id) && NoClash(db, id, team) && a in team && Progress(db, id, team, r)
    requires J(db, id, team, Step(r, id, team, a))
    ensures Progress(db, id, team, Step(r, id, team, a))
  {
    var n := Step(r, id, team, a);
    assert PhaseOk(db, id, team, r, a);
    match r.phases[a]
    case Idle => StillCarrying(r, n, a);
    case HasRead(_) => StillCarrying(r, n, a); assert n.phases[a].Carrying? || n.phases[a].Finished?;
    case Carrying(row) => CarrierEnds(db, id, team, r, a);
    case Looking(_, _) => StillCarrying(r, n, a); LookKeeps(db, id, team, r, a); ResolvedStays(db, id, team, r, a);
    case Finished(_) =>
  }

  /** A carrier other than the one moving goes on carrying. */
  lemma StillCarrying(r: Race, n: Race, a: nat)
    requires a in r.phases && !r.phases[a].Carrying? && n.phases.Keys == r.phases.Keys
    requires forall b :: b in r.phases && b != a ==> n.phases[b] == r.phases[b]
    ensures (exists b :: b in r.phases && r.phases[b].Carrying?) ==> exists b :: b in n.phases && n.phases[b].Carrying?
  {
  }

  lemma ResolvedStays(db: Db, id: CmdId, team: map<nat, Actor>, r: Race, a: nat)
    requires J(db, id, team, r) && a in team && r.phases[a].Looking?
    ensures var n := Step(r, id, team, a);
      id in n.db.commands && n.db.commands[id].acked == r.db.commands[id].acked
      && (r.db.commands[id].resolved ==> n.db.commands[id].resolved) && n.sleeper == r.sleeper
  {
  }

  lemma CarrierEnds(db: Db, id: CmdId, team: map<nat, Actor>, r: Race, a: nat)
    requires J(db, id, team, r) && Fresh(db, id) && NoClash(db, id, team) && a in team && r.phases[a].Carrying?
    ensures var n := Step(r, id, team, a);
      id in n.db.commands && n.db.commands[id].acked && (n.db.commands[id].resolved || n.sleeper.Some? || r.phases[a].row.resolved)
  {
  }

  lemma {:induction false} InterleaveProgress(db: Db, id: CmdId, team: map<nat, Actor>, schedule: seq<nat>)
    requires Fresh(db, id) && NoClash(db, id, team) && forall j :: 0 <= j < |schedule| ==> schedule[j] in team
    ensures id in Interleave(db, id, team, schedule).db.commands && Progress(db, id, team, Interleave(db, id, team, schedule))
  {
    if schedule != [] {
      var before := schedule[..|schedule| - 1];
      InterleaveProgress(db, id, team, before);
      InterleaveKeeps(db, id, team, before);
      InterleaveKeeps(db, id, team, schedule);
      ProgressStep(db, id, team, Interleave(db, id, team, before), schedule[|schedule| - 1]);
    }
  }

  /** When everyone has finished and an ack of the owner took part, the row is resolved unless the
      ack that got through said neither yes nor no. */
  lemma SomebodyWins(db: Db, id: CmdId, team: map<nat, Actor>, schedule: seq<nat>, a: nat)
    requires Fresh(db, id) && NoClash(db, id, team) && forall j :: 0 <= j < |schedule| ==> schedule[j] in team
    requires a in team && team[a].Acker? && team[a].user == db.commands[id].user
    requires forall b :: b in team ==> Interleave(db, id, team, schedule).phases[b].Finished?
    ensures var r := Interleave(db, id, team, schedule);
      id in r.db.commands && r.db.commands[id].acked && (r.db.commands[id].resolved || r.sleeper.Some?)
  {
    InterleaveProgress(db, id, team, schedule);
  }

  // ---- The never-sent verdict ----

  /** A route gives the command up as never sent in the middle of a race, whose history starts afresh. */
  function GivenUp(r: Race, id: CmdId): Race { r.(db := NeverDispatched(r.db, id), winner := None, sleeper := None) }

  /** An undecided ack that has read the row open and not written its verdict yet. */
  predicate Undecided(r: Race, team: map<nat, Actor>, a: nat) {
    a in team && team[a].Acker? && a in r.phases &&
    match r.phases[a]
    case HasRead(row) => Unsettled(row, team[a].ack)
    case Carrying(row) => Unsettled(row, team[a].ack)
    case _ => false
  }

  /** After the verdict nobody finds the row open, so only acks that had read it before can still write. */
  ghost predicate Verdict(r: Race, id: CmdId, team: map<nat, Actor>, n: Race) {
    && id in n.db.commands && n.db.commands[id].resolved && n.db.commands[id].via == Some(ByLocal)
    && n.db.commands[id].outcome == Some(if n.sleeper.Some? then OutUnknown else OutError)
    && (n.sleeper.Some? ==> Undecided(r, team, n.sleeper.value))
    && (forall a :: Undecided(n, team, a) ==> Undecided(r, team, a))
    && (forall a :: a in team && a in r.phases && a in n.phases && Undecided(r, team, a) && r.phases[a].Carrying? ==>
          n.phases[a] == r.phases[a] || n.sleeper.Some?)
  }

  lemma VerdictStep(r: Race, id: CmdId, team: map<nat, Actor>, n: Race, a: nat)
    requires Verdict(r, id, team, n) && a in team && a in n.phases
    ensures Verdict(r, id, team, Step(n, id, team, a))
  {
    if n.phases[a].Looking? && !team[a].Acker? {
      ResolveAfterWinner(n.db, id, team[a], n.phases[a].row, n.phases[a].order);
    }
  }

  lemma GivenUpVerdict(r: Race, id: CmdId, team: map<nat, Actor>)
    requires id in r.db.commands && !r.db.commands[id].resolved && r.db.commands[id].kind != Cancel
    ensures Verdict(r, id, team, GivenUp(r, id))
  {
  }

  lemma {:induction false} VerdictOverRace(r: Race, id: CmdId, team: map<nat, Actor>, schedule: seq<nat>)
    requires r.phases.Keys == team.Keys && forall j :: 0 <= j < |schedule| ==> schedule[j] in team
    requires id in r.db.commands && !r.db.commands[id].resolved && r.db.commands[id].kind != Cancel
    ensures Verdict(r, id, team, Resume(GivenUp(r, id), id, team, schedule))
  {
    if schedule == [] {
      GivenUpVerdict(r, id, team);
    } else {
      var before := schedule[..|schedule| - 1];
      VerdictOverRace(r, id, team, before);
      VerdictStep(r, id, team, Resume(GivenUp(r, id), id, team, before), schedule[|schedule| - 1]);
    }
  }

  /** Main result: given up at any point of any race, the command stays resolved locally, and as an error unless an
      undecided ack that had read it open writes afterwards; one already past the transport write does, in its turn. */
  lemma GivenUpIsOverwritten(db: Db, id: CmdId, team: map<nat, Actor>, before: seq<nat>, after: seq<nat>)
    requires (forall j :: 0 <= j < |before| ==> before[j] in team) && forall j :: 0 <= j < |after| ==> after[j] in team
    requires var r := Interleave(db, id, team, before); id in r.db.commands && !r.db.commands[id].resolved && r.db.commands[id].kind != Cancel
    ensures var r := Interleave(db, id, team, before); var n := Resume(GivenUp(r, id), id, team, after);
      && id in n.db.commands && n.db.commands[id].resolved && n.db.commands[id].via == Some(ByLocal)
      && n.db.commands[id].outcome == Some(if n.sleeper.Some? then OutUnknown else OutError)
      && (n.sleeper.Some? ==> Undecided(r, team, n.sleeper.value))
      && (forall a :: a in team && Undecided(r, team, a) && r.phases[a].Carrying? && n.phases[a].Finished? ==> n.sleeper.Some?)
  {
    VerdictOverRace(Interleave(db, id, team, before), id, team, after);
  }

  lemma Turns(r: Race, id: CmdId, team: map<nat, Actor>)
    requires r.phases.Keys == team.Keys && 0 in team
    ensures Resume(r, id, team, []) == r && Resume(r, id, team, [0]) == Step(r, id, team, 0)
    ensures Resume(r, id, team, [0, 0]) == Step(Resume(r, id, team, [0]), id, team, 0)
    ensures Resume(r, id, team, [0, 0, 0]) == Step(Resume(r, id, team, [0, 0]), id, team, 0)
  {
    assert [0][..0] == [] && [0, 0][..1] == [0] && [0, 0, 0][..2] == [0, 0];
  }

  /** Where one undecided ack stands after each of its three statements. */
  lemma AckTurns(db: Db, id: CmdId, ack: Ack)
    requires Fresh(db, id) && !ack.ok && !ExplicitReject(ack)
    ensures var c := db.commands[id]; var team := map[0 := Acker(c.user, ack)]; var r := Begin(db, team);
      && r.phases == map[0 := Idle]
      && Resume(r, id, team, [0]) == r.(phases := map[0 := HasRead(c)])
      && Resume(r, id, team, [0, 0]).phases == map[0 := Carrying(c)]
      && Resume(r, id, team, [0, 0]).db.commands == db.commands[id := c.(acked := true)]
      && Resume(r, id, team, [0, 0, 0]).phases == map[0 := Finished(false)]
      && Resume(r, id, team, [0, 0, 0]).db.commands == db.commands[id := c.(acked := true, outcome := Some(OutUnknown))]
  {
    var team := map[0 := Acker(db.commands[id].user, ack)];
    Turns(Begin(db, team), id, team);
  }

  lemma GivenUpRow(db: Db, id: CmdId)
    requires id in db.commands && !db.commands[id].resolved && db.commands[id].kind != Cancel
    ensures NeverDispatched(db, id).commands
         == db.commands[id := db.commands[id].(outcome := Some(OutError), via := Some(ByLocal), resolved := true, resultOrdno := None)]
  {
  }

  /** Going on after the verdict: an ack that read the row open writes, whichever of its statements come later. */
  lemma AckTurnsAfter(g: Race, id: CmdId, user: UserId, ack: Ack)
    requires id in g.db.commands && g.phases.Keys == {0} && g.sleeper == None
    requires g.db.commands[id].resolved && g.db.commands[id].user == user && !ack.ok && !ExplicitReject(ack)
    ensures var team := map[0 := Acker(user, ack)];
      && (g.phases[0].Idle? ==> Resume(g, id, team, [0, 0, 0]).sleeper == None)
      && (g.phases[0].HasRead? && !g.phases[0].row.resolved && !g.db.commands[id].acked ==> Resume(g, id, team, [0, 0]).sleeper.Some?)
      && (g.phases[0].Carrying? && !g.phases[0].row.resolved ==> Resume(g, id, team, [0]).sleeper.Some?)
      && Resume(g, id, team, []).sleeper == None
  {
    Turns(g, id, map[0 := Acker(user, ack)]);
  }

  /** One undecided ack of the owner and one verdict: the verdict is overwritten if and only if it falls after the
      ack's read and before its last write. */
  lemma OneUndecidedAck(db: Db, id: CmdId, ack: Ack, j: nat)
    requires Fresh(db, id) && db.commands[id].kind != Cancel && !ack.ok && !ExplicitReject(ack) && j <= 3
    ensures var team := map[0 := Acker(db.commands[id].user, ack)]; var turns := [0, 0, 0];
      var r := Interleave(db, id, team, turns[..j]); var n := Resume(GivenUp(r, id), id, team, turns[j..]);
      && id in n.db.commands && n.db.commands[id].resolved && n.db.commands[id].via == Some(ByLocal)
      && n.db.commands[id].outcome == Some(if 0 < j < 3 then OutUnknown else OutError)
  {
    var team := map[0 := Acker(db.commands[id].user, ack)];
    var turns := [0, 0, 0];
    var r := Interleave(db, id, team, turns[..j]);
    assert turns[..0] == [] && turns[..1] == [0] && turns[..2] == [0, 0] && turns[..3] == turns;
    assert turns[0..] == turns && turns[1..] == [0, 0] && turns[2..] == [0] && turns[3..] == [];
    AckTurns(db, id, ack);
    assert id in r.db.commands && !r.db.commands[id].resolved && r.db.commands[id].kind != Cancel;
    GivenUpRow(r.db, id);
    AckTurnsAfter(GivenUp(r, id), id, db.commands[id].user, ack);
    VerdictOverRace(r, id, team, turns[j..]);
  }
}
