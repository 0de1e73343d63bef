/** The order status guard, and the three writes that go around it or around the resolve. */
module StatusGuard {
  import opened Common
  import opened Ledger
  import opened Server
  import opened Tables
  import opened SingleFlight
  import opened Reservations
  import opened ExposureBound
  import Race

  /** A status after a sequence of guarded reports. */
  function MarkAll(status: Status, reports: seq<Status>): Status {
    if reports == [] then status
    else
      var s := MarkAll(status, reports[..|reports| - 1]);
      var next := reports[|reports| - 1];
      if CanMove(s, next) then next else s
  }

  predicate Live(s: Status) { !Terminal(s) && s != Unknown }

  /** The furthest of a status and a set of live reports. */
  function Furthest(status: Status, reports: seq<Status>): (r: int)
    ensures r >= Rank(status) && forall j :: 0 <= j < |reports| ==> r >= Rank(reports[j])
  {
    if reports == [] then Rank(status)
    else
      var m := Furthest(status, reports[..|reports| - 1]);
      var k := Rank(reports[|reports| - 1]);
      if k > m then k else m
  }

  /** Live reports may come late, twice or in any order: the order ends at the furthest of them. */
  lemma {:induction false} ReportsConverge(status: Status, reports: seq<Status>)
    requires Live(status) && forall j :: 0 <= j < |reports| ==> Live(reports[j])
    ensures Live(MarkAll(status, reports)) && Rank(MarkAll(status, reports)) == Furthest(status, reports)
  {
    if reports != [] { ReportsConverge(status, reports[..|reports| - 1]); }
  }

  lemma RankIsName(a: Status, b: Status)
    requires Live(a) && Live(b) && Rank(a) == Rank(b)
    ensures a == b
  {
  }

  /** Two deliveries of the same reports leave the same status. */
  lemma DeliveryOrderIsIrrelevant(status: Status, one: seq<Status>, other: seq<Status>)
    requires Live(status) && (forall j :: 0 <= j < |one| ==> Live(one[j])) && (forall x :: x in one <==> x in other)
    ensures MarkAll(status, one) == MarkAll(status, other)
  {
    forall j | 0 <= j < |other| ensures Live(other[j]) { assert other[j] in one; }
    ReportsConverge(status, one);
    ReportsConverge(status, other);
    FurthestOf(status, one, other);
    FurthestOf(status, other, one);
    RankIsName(MarkAll(status, one), MarkAll(status, other));
  }

  lemma {:induction false} FurthestOf(status: Status, part: seq<Status>, whole: seq<Status>)
    requires forall x :: x in part ==> x in whole
    ensures Furthest(status, part) <= Furthest(status, whole)
  {
    if part != [] {
      var last := part[|part| - 1];
      FurthestOf(status, part[..|part| - 1], whole);
      assert last in whole;
      var j :| 0 <= j < |whole| && whole[j] == last;
      assert Furthest(status, whole) >= Rank(whole[j]);
    }
  }

  /** Filled, cancelled and failed absorb every later report. */
  lemma {:induction false} FinalStatusesAbsorb(status: Status, reports: seq<Status>)
    requires status == Filled || Terminal(status)
    ensures MarkAll(status, reports) == status
  {
    if reports != [] { FinalStatusesAbsorb(status, reports[..|reports| - 1]); }
  }

  /** A live status falls to a lower one only with `Unknown` somewhere in between. */
  lemma {:induction false} DropsPassUnknown(status: Status, reports: seq<Status>, m: nat, n: nat)
    requires m <= n <= |reports| && Live(MarkAll(status, reports[..m])) && Live(MarkAll(status, reports[..n]))
    requires Rank(MarkAll(status, reports[..n])) < Rank(MarkAll(status, reports[..m]))
    ensures exists k :: m < k < n && MarkAll(status, reports[..k]) == Unknown
    decreases n
  {
    if m < n {
      assert reports[..n][..n - 1] == reports[..n - 1];
      var before := MarkAll(status, reports[..n - 1]);
      if before == Unknown {
        assert n - 1 != m;
      } else {
        DropsPassUnknown(status, reports, m, n - 1);
      }
    }
  }

  /** And it can fall. */
  lemma UnknownLetsFall()
    ensures MarkAll(PartFilled, [Unknown, Submitted]) == Submitted
  {
    assert [Unknown, Submitted][..1] == [Unknown];
    assert MarkAll(PartFilled, [Unknown]) == Unknown by { assert [Unknown][..0] == []; }
  }

  // ---- Any reports ----

  /** The first of the reports that settles an order for good. */
  function FirstFinal(reports: seq<Status>): Option<Status> {
    if reports == [] then None
    else
      var f := FirstFinal(reports[..|reports| - 1]);
      var last := reports[|reports| - 1];
      if f.Some? then f else if TerminalForResolver(last) then Some(last) else None
  }

  lemma {:induction false} FirstFinalIsFirst(reports: seq<Status>)
    ensures FirstFinal(reports) == None ==> forall x :: x in reports ==> !TerminalForResolver(x)
    ensures FirstFinal(reports).Some? ==>
              exists j :: 0 <= j < |reports| && FirstFinal(reports) == Some(reports[j]) && TerminalForResolver(reports[j])
                          && forall i :: 0 <= i < j ==> !TerminalForResolver(reports[i])
  {
    if reports != [] {
      var front := reports[..|reports| - 1];
      FirstFinalIsFirst(front);
      if FirstFinal(front).Some? {
        var j :| 0 <= j < |front| && FirstFinal(front) == Some(front[j]) && TerminalForResolver(front[j])
                 && forall i :: 0 <= i < j ==> !TerminalForResolver(front[i]);
        assert reports[j] == front[j] && forall i :: 0 <= i < j ==> reports[i] == front[i];
      }
    }
  }

  /** The reports after the last one that lost track of the order. */
  function SinceUnknown(reports: seq<Status>): seq<Status> {
    if reports == [] then []
    else
      var last := reports[|reports| - 1];
      if last == Unknown then [] else SinceUnknown(reports[..|reports| - 1]) + [last]
  }

  lemma {:induction false} SinceIsASuffix(reports: seq<Status>)
    ensures var since := SinceUnknown(reports);
      && Unknown !in since && |since| <= |reports| && since == reports[|reports| - |since|..]
      && (since == reports || reports[|reports| - |since| - 1] == Unknown)
  {
    if reports != [] && reports[|reports| - 1] != Unknown {
      var front, last := reports[..|reports| - 1], reports[|reports| - 1];
      SinceIsASuffix(front);
      assert reports == front + [last];
      SuffixGrows(front, |front| - |SinceUnknown(front)|, last);
    }
  }

  lemma SuffixGrows(front: seq<Status>, cut: nat, last: Status)
    requires cut <= |front|
    ensures (front + [last])[cut..] == front[cut..] + [last]
    ensures cut > 0 ==> (front + [last])[cut - 1] == front[cut - 1]
  {
  }

  /** What a submitted order stands at: the first final report; else the furthest report since its track was last lost. */
  function Standing(reports: seq<Status>): Status {
    Furthermost(FirstFinal(reports), SinceUnknown(reports), Unknown in reports)
  }

  function Furthermost(final: Option<Status>, since: seq<Status>, lost: bool): Status {
    if final.Some? then final.value
    else if PartFilled in since then PartFilled
    else if Submitted in since || !lost then Submitted
    else if Sending in since then Sending
    else if Pending in since then Pending
    else Unknown
  }

  lemma FurthermostMoves(since: seq<Status>, lost: bool, next: Status)
    requires !TerminalForResolver(next) && next != Unknown
    ensures var s := Furthermost(None, since, lost);
      Furthermost(None, since + [next], lost) == if CanMove(s, next) then next else s
  {
  }

  lemma {:induction false} StandsAt(reports: seq<Status>)
    ensures MarkAll(Submitted, reports) == Standing(reports)
    ensures FirstFinal(reports).Some? ==> TerminalForResolver(FirstFinal(reports).value)
  {
    if reports != [] {
      var front, last := reports[..|reports| - 1], reports[|reports| - 1];
      StandsAt(front);
      assert Unknown in reports <==> Unknown in front || last == Unknown by { assert reports == front + [last]; }
      if !TerminalForResolver(last) && last != Unknown { FurthermostMoves(SinceUnknown(front), Unknown in front, last); }
    }
  }

  // ---- The unguarded write of an accepted placement ----

  /** The first ack of a placement always finds an order it may overwrite. */
  lemma FirstAckIsSafe(s: State, id: CmdId, ordno: Option<Ordno>, limit: int)
    requires Inv(s, limit) && id in s.db.commands && s.db.commands[id].kind == Place
    requires !s.db.commands[id].acked && !s.db.commands[id].resolved
    ensures Known(s.db, s.db.commands[id].client)
    ensures var o := OrderOf(s.db, s.db.commands[id].client); PlaceAckOrder(o, ordno).status == MarkStatus(o, Submitted).status
  {
  }

  /** The server after some reports about one order. */
  function Reported(s: State, k: ClientId, reports: seq<Status>): (n: State)
    requires Known(s.db, k) && OrderOf(s.db, k).ordno.Some?
    ensures n.db.commands == s.db.commands && n.db.quotas == s.db.quotas && n.told == s.told && Known(n.db, k)
    ensures OrderOf(n.db, k) == OrderOf(s.db, k).(status := MarkAll(OrderOf(s.db, k).status, reports))
  {
    if reports == [] then s
    else
      var mid := Reported(s, k, reports[..|reports| - 1]);
      var e := StatusReported(k, reports[|reports| - 1]);
      ReportKeepsClient(mid.db.orders, FindClient(mid.db.orders, k), MarkStatus(OrderOf(mid.db, k), e.status));
      Apply(mid, e, 0)
  }

  lemma ReportKeepsClient(orders: seq<Order>, i: nat, o: Order)
    requires i < |orders| && o.client == orders[i].client && FindClient(orders, o.client) == i
    ensures FindClient(orders[i := o], o.client) == i
  {
    var next := orders[i := o];
    var j := FindClient(next, o.client);
    assert forall x :: 0 <= x < i ==> next[x].client != o.client;
    assert next[i].client == o.client;
  }

  lemma {:induction false} ReportedShape(s: State, k: ClientId, reports: seq<Status>)
    requires Shape(s) && Known(s.db, k) && OrderOf(s.db, k).ordno.Some?
    ensures Shape(Reported(s, k, reports))
  {
    if reports != [] {
      ReportedShape(s, k, reports[..|reports| - 1]);
      ShapeStep(Reported(s, k, reports[..|reports| - 1]), StatusReported(k, reports[|reports| - 1]), 0);
    }
  }

  /** A placement whose route was told its number and whose order is submitted, whatever its row says. */
  ghost predicate AtBroker(s: State, id: CmdId) {
    && Shape(s) && id in s.db.commands && s.db.commands[id].kind == Place && id in s.told
    && Known(s.db, s.db.commands[id].client) && OrderOf(s.db, s.db.commands[id].client).ordno.Some?
    && OrderOf(s.db, s.db.commands[id].client).status == Submitted
  }

  /** The reports leave a submitted order submitted: none is final, and since the track was last lost none went
      further and one came back to it. */
  predicate StaysSubmitted(reports: seq<Status>) {
    && FirstFinal(reports) == None && PartFilled !in SinceUnknown(reports)
    && (Unknown in reports ==> Submitted in SinceUnknown(reports))
  }

  lemma StaysExactly(reports: seq<Status>)
    ensures Standing(reports) == Submitted <==> StaysSubmitted(reports)
  {
    StandsAt(reports);
  }

  /** The route's repeat of the write shows the order as submitted after any reports, so it undoes them exactly
      when they moved the order: a fill, a cancellation, a failure or a lost track that was not made good. */
  lemma WriteBackUndoesReports(s: State, id: CmdId, reports: seq<Status>)
    requires AtBroker(s, id)
    ensures var k := s.db.commands[id].client; var n := Reported(s, k, reports); var back := RouteWritesBack(id);
      && Enabled(n, back) && Known(Apply(n, back, 0).db, k)
      && OrderOf(Apply(n, back, 0).db, k).status == Submitted && OrderOf(n.db, k).status == Standing(reports)
      && (OrderOf(Apply(n, back, 0).db, k).status != OrderOf(n.db, k).status <==> !StaysSubmitted(reports))
  {
    var k := s.db.commands[id].client;
    var n := Reported(s, k, reports);
    StandsAt(reports);
    StaysExactly(reports);
    ReportedShape(s, k, reports);
    WrittenBack(n, id);
  }

  /** A write-back of a numbered placement. */
  lemma WrittenBack(s: State, id: CmdId)
    requires Shape(s) && Enabled(s, RouteWritesBack(id)) && s.db.commands[id].kind == Place
    requires Known(s.db, s.db.commands[id].client) && OrderOf(s.db, s.db.commands[id].client).ordno.Some?
    ensures var k := s.db.commands[id].client; var after := Apply(s, RouteWritesBack(id), 0).db;
      Known(after, k) && OrderOf(after, k).status == Submitted
  {
    var k := s.db.commands[id].client;
    assert Scoped(s, id);
    ReportKeepsClient(s.db.orders, FindClient(s.db.orders, k), PlaceAckOrder(OrderOf(s.db, k), s.told[id]));
  }

  function Placed(): seq<Event> {
    [PlaceDecided(Lot(1, 5), 100, 0, false), AckArrives(100, 1, Ack(true, None, Some(7)))]
  }

  function PlacedState(): State {
    State(Db(map[100 := LeakDone()], [LeakOrder(5)], [Held(PlaceRes(1), 5, Confirmed)]), map[], map[100 := Some(7)])
  }

  lemma PlacedReached()
    ensures Enabled(Start, Placed()[0]) && Enabled(Apply(Start, Placed()[0], 10), Placed()[1])
    ensures Apply(Apply(Start, Placed()[0], 10), Placed()[1], 10) == PlacedState()
  {
  }

  /** A fill is overwritten and the order shown as merely submitted. It takes a route that still waits for
      its slot's lock while a login replay has the command delivered, acknowledged and filled. */
  lemma FilledThenWrittenBack()
    ensures var filled := StatusReported(1, Filled); var back := RouteWritesBack(100);
      && Enabled(PlacedState(), filled) && Enabled(Apply(PlacedState(), filled, 10), back)
      && Apply(PlacedState(), filled, 10).db.orders[0].status == Filled
      && Apply(Apply(PlacedState(), filled, 10), back, 10).db.orders[0].status == Submitted
  {
  }

  // ---- The local verdict ----

  /** An accepted placement at the broker. */
  ghost predicate Accepted(s: State, id: CmdId) {
    AtBroker(s, id) && s.db.commands[id].resolved && s.db.commands[id].outcome == Some(OutOk)
  }

  /** The local path fails the order before it tries to resolve: after any reports about an accepted placement the
      verdict stands, and the order ends failed unless it had been filled or cancelled first. */
  lemma LocalVerdictFailsLiveOrders(s: State, id: CmdId, reports: seq<Status>)
    requires Accepted(s, id)
    ensures var k := s.db.commands[id].client; var n := Reported(s, k, reports); var never := RouteNeverSends(id);
      && Enabled(n, never) && Known(Apply(n, never, 0).db, k)
      && Apply(n, never, 0).db.commands == s.db.commands
      && (OrderOf(Apply(n, never, 0).db, k).status == Failed
          <==> FirstFinal(reports) != Some(Filled) && FirstFinal(reports) != Some(Cancelled))
  {
    var k := s.db.commands[id].client;
    var n := Reported(s, k, reports);
    StandsAt(reports);
    FailsUnlessFinal(reports);
    ReportKeepsClient(n.db.orders, FindClient(n.db.orders, k), MarkStatus(OrderOf(n.db, k), Failed));
  }

  lemma FailsUnlessFinal(reports: seq<Status>)
    ensures (Standing(reports) == Failed || CanMove(Standing(reports), Failed))
       <==> FirstFinal(reports) != Some(Filled) && FirstFinal(reports) != Some(Cancelled)
  {
    StandsAt(reports);
  }

  /** A placement a replay delivered and the broker accepted is marked failed by its own route. */
  lemma LiveOrderMarkedFailed()
    ensures var never := RouteNeverSends(100);
      && Enabled(PlacedState(), never)
      && Apply(PlacedState(), never, 10).db.orders[0].status == Failed
      && Apply(PlacedState(), never, 10).db.commands[100].outcome == Some(OutOk)
  {
  }

  // ---- The unguarded verdict of an ack that says neither yes nor no ----

  function OpenState(): State {
    State(Db(map[100 := LeakPlaced(1)], [Lot(1, 5)], [Held(PlaceRes(1), 5, Reserved)]), map[], map[])
  }

  /** Run in pieces it overwrites the never-sent verdict: the ack reads the open row, the route gives the
      command up as never sent, and then the ack's transport write and its verdict go through. Exactly when, over
      any interleaving: `Race.GivenUpIsOverwritten`, `Race.OneUndecidedAck`. Among acks and resolvers alone nothing of
      the kind can happen (`Race.VerdictIsFinal`). */
  lemma UndecidedAckOverwrites()
    ensures var late := Ack(false, Some(Timeout), None); var never := RouteNeverSends(100);
      && Enabled(Start, Placed()[0]) && Apply(Start, Placed()[0], 10) == OpenState()
      && Race.Read(OpenState().db, 100, Race.Acker(1, late)) == Race.HasRead(LeakPlaced(1))
      && Enabled(OpenState(), never)
      && var given := Apply(OpenState(), never, 10).db;
         && given.commands[100].resolved && given.commands[100].outcome == Some(OutError) && given.commands[100].via == Some(ByLocal)
         && Race.Mark(given, 100, LeakPlaced(1)).1 == Race.Carrying(LeakPlaced(1))
         && var after := Race.Business(Race.Mark(given, 100, LeakPlaced(1)).0, 100, LeakPlaced(1), late).0;
            after.commands[100].resolved && after.commands[100].outcome == Some(OutUnknown) && after.commands[100].via == Some(ByLocal)
  {
  }
}
