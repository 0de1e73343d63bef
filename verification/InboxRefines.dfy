/** The inbox worker refines a simple fold: books and orders are what the distinct deals, applied once
    each in landing order, make of them. */
module InboxRefines {
  import opened Common
  import opened Inbox
  import P = Positions

  // ---- The simple form ----

  predicate DealsOk(deals: seq<Deal>) { forall j :: 0 <= j < |deals| ==> P.FillOk(deals[j].fill) }

  /** One scope's fills, in landing order. */
  function FillsOf(deals: seq<Deal>, scope: Scope): (r: seq<P.Fill>)
    ensures DealsOk(deals) ==> forall f :: f in r ==> P.FillOk(f)
  {
    if deals == [] then []
    else
      var d := deals[|deals| - 1];
      FillsOf(deals[..|deals| - 1], scope) + if d.scope == scope then [d.fill] else []
  }

  function FillsFor(deals: seq<Deal>, order: nat): (r: seq<P.Fill>)
    ensures DealsOk(deals) ==> forall f :: f in r ==> P.FillOk(f)
  {
    if deals == [] then []
    else
      var d := deals[|deals| - 1];
      FillsFor(deals[..|deals| - 1], order) + if d.order == order then [d.fill] else []
  }

  function FoldedBook(deals: seq<Deal>, scope: Scope): P.Book
    requires DealsOk(deals)
  {
    P.Folded(FillsOf(deals, scope), scope.mode, PointValue(scope.symbol))
  }

  // ---- Invariant ----

  ghost predicate Distinct(deals: seq<Deal>) { forall i, j :: 0 <= i < j < |deals| ==> deals[i].key != deals[j].key }

  ghost predicate BooksFold(s: Store)
    requires DealsOk(s.deals)
  {
    forall scope :: BookAt(s, scope) == FoldedBook(s.deals, scope)
  }

  ghost predicate OrdersFold(s: Store)
    requires DealsOk(s.deals)
  {
    && (forall k :: 0 <= k < |s.orders| ==> s.orders[k].filled == P.AddFills(FillsFor(s.deals, k)))
    && (forall j :: 0 <= j < |s.deals| ==> s.deals[j].order < |s.orders|)
  }

  /** Why a row may be done: its deal is in the ledger, its status was taken, or it is dead. */
  predicate DoneFor(s: Store, row: RawRow) {
    row.processed ==>
      || (row.quarantine && row.reason.Some? && Dead(row.reason.value))
      || (!row.quarantine && row.body.DealBody? && Landed(s.deals, row.body.report.key))
      || (!row.quarantine && row.body.StatusBody?)
  }

  /** A staged row told of this deal, and its order gave it scope and kind. */
  predicate Told(s: Store, d: Deal, i: nat)
    requires i < |s.rows|
  {
    d.order < |s.orders| && s.rows[i].body.DealBody? && s.rows[i].body.report.key == d.key
    && d.scope == ScopeOf(s.orders[d.order]) && d.fill == FillOf(s.rows[i].body.report, s.orders[d.order])
  }

  ghost predicate DealsTold(s: Store) {
    forall j :: 0 <= j < |s.deals| ==> Sourced(s, s.deals[j])
  }

  predicate Sourced(s: Store, d: Deal) { exists i :: 0 <= i < |s.rows| && Told(s, d, i) }

  ghost predicate RowsDone(s: Store) { forall i :: 0 <= i < |s.rows| ==> DoneFor(s, s.rows[i]) }

  ghost predicate Inv(s: Store) {
    StoreTyped(s) && DealsOk(s.deals) && Distinct(s.deals) && BooksFold(s) && OrdersFold(s) && RowsDone(s)
  }

  // ---- Landing one deal ----

  lemma FillsAppend(deals: seq<Deal>, d: Deal, scope: Scope, order: nat)
    ensures FillsOf(deals + [d], scope) == FillsOf(deals, scope) + if d.scope == scope then [d.fill] else []
    ensures FillsFor(deals + [d], order) == FillsFor(deals, order) + if d.order == order then [d.fill] else []
  {
  }

  lemma FoldedAppend(fills: seq<P.Fill>, f: P.Fill, mode: Mode, pointValue: real)
    requires P.FillOk(f) && forall x :: x in fills ==> P.FillOk(x)
    ensures var r := P.ApplyFill(P.Folded(fills, mode, pointValue), f, mode, pointValue);
      P.Folded(fills + [f], mode, pointValue) == if r.Done? then r.value else P.Folded(fills, mode, pointValue)
    ensures P.AddFills(fills + [f]) == P.AddFill(P.AddFills(fills), f)
  {
  }

  lemma LandedBooks(s: Store, d: Deal, book: P.Book)
    requires DealsOk(s.deals) && P.FillOk(d.fill) && BooksFold(s)
    requires P.BookOk(BookAt(s, d.scope))
    requires P.ApplyFill(BookAt(s, d.scope), d.fill, d.scope.mode, PointValue(d.scope.symbol)) == P.Done(book)
    ensures DealsOk(s.deals + [d])
    ensures forall scope :: BookAt(s.(books := s.books[d.scope := book]), scope) == FoldedBook(s.deals + [d], scope)
  {
    forall scope ensures BookAt(s.(books := s.books[d.scope := book]), scope) == FoldedBook(s.deals + [d], scope) {
      FillsAppend(s.deals, d, scope, 0);
      assert BookAt(s, scope) == FoldedBook(s.deals, scope);
      if scope == d.scope {
        FoldedAppend(FillsOf(s.deals, scope), d.fill, scope.mode, PointValue(scope.symbol));
      } else {
        assert FillsOf(s.deals, scope) + [] == FillsOf(s.deals, scope);
      }
    }
  }

  lemma LandedOrders(s: Store, d: Deal, orders: seq<Booked>)
    requires DealsOk(s.deals) && P.FillOk(d.fill) && OrdersFold(s) && d.order < |s.orders| && |orders| == |s.orders|
    requires forall k :: 0 <= k < |orders| ==>
               orders[k].filled == if k == d.order then P.AddFill(s.orders[k].filled, d.fill) else s.orders[k].filled
    ensures DealsOk(s.deals + [d])
    ensures forall k :: 0 <= k < |orders| ==> orders[k].filled == P.AddFills(FillsFor(s.deals + [d], k))
  {
    forall k | 0 <= k < |orders| ensures orders[k].filled == P.AddFills(FillsFor(s.deals + [d], k)) {
      FillsAppend(s.deals, d, Scope(0, 0, Sim, 0), k);
      if k == d.order {
        FoldedAppend(FillsFor(s.deals, k), d.fill, Sim, 0.0);
      } else {
        assert FillsFor(s.deals, k) + [] == FillsFor(s.deals, k);
      }
    }
  }

  /** A deal report lands as a replay, which changes nothing, or as exactly one deal more. */
  lemma LandingShape(s: Store, owner: Option<UserId>, r: Report)
    requires StoreTyped(s) && ReportOk(r) && ProcessDeal(s, owner, r).Lands?
    ensures var o := ProcessDeal(s, owner, r);
      if Landed(s.deals, r.key) then o == Lands(s.deals, s.orders, s.books)
      else
        && |o.deals| == |s.deals| + 1 && o.deals[..|s.deals|] == s.deals
        && var d := o.deals[|s.deals|];
           && d.key == r.key && d.order < |s.orders| && P.FillOk(d.fill) && o.orders == s.orders[d.order := FillOrder(s.orders[d.order], d.fill)]
           && d.scope == ScopeOf(s.orders[d.order]) && d.fill == FillOf(r, s.orders[d.order])
           && d.scope in o.books && o.books == s.books[d.scope := o.books[d.scope]]
           && P.ApplyFill(BookAt(s, d.scope), d.fill, d.scope.mode, PointValue(d.scope.symbol)) == P.Done(o.books[d.scope])
  {
  }

  lemma KeysAfter(deals: seq<Deal>, d: Deal)
    requires Distinct(deals) && !Landed(deals, d.key)
    ensures Distinct(deals + [d]) && Landed(deals + [d], d.key) && forall key :: Landed(deals, key) ==> Landed(deals + [d], key)
  {
    var n := deals + [d];
    assert n[|deals|].key == d.key;
    forall key | Landed(deals, key) ensures Landed(n, key) {
      var j :| 0 <= j < |deals| && deals[j].key == key;
      assert n[j].key == key;
    }
  }

  lemma BookStaysOk(b: P.Book, f: P.Fill, mode: Mode, pointValue: real)
    requires P.FillOk(f) && P.BookOk(b) && P.ApplyFill(b, f, mode, pointValue).Done?
    ensures P.BookOk(P.ApplyFill(b, f, mode, pointValue).value)
  {
    P.ApplyConserves(b, f, mode, pointValue);
  }

  lemma TypedAfter(s: Store, d: Deal, book: P.Book, orders: seq<Booked>, deals: seq<Deal>)
    requires StoreTyped(s) && P.BookOk(book) && |orders| == |s.orders|
    requires forall k :: 0 <= k < |orders| ==> orders[k].filled.qty >= 0
    ensures StoreTyped(Store(s.rows, deals, orders, s.books[d.scope := book]))
  {
  }

  /** The orders after the fill has reached its own. */
  function FilledOrders(s: Store, d: Deal): (r: seq<Booked>)
    requires StoreTyped(s) && P.FillOk(d.fill) && d.order < |s.orders|
    ensures |r| == |s.orders| && r == s.orders[d.order := FillOrder(s.orders[d.order], d.fill)]
    ensures forall k :: 0 <= k < |r| ==>
              r[k].filled == (if k == d.order then P.AddFill(s.orders[k].filled, d.fill) else s.orders[k].filled) && r[k].filled.qty >= 0
  {
    s.orders[d.order := FillOrder(s.orders[d.order], d.fill)]
  }

  lemma NewDeal(s: Store, d: Deal, book: P.Book)
    requires Inv(s) && P.FillOk(d.fill) && d.order < |s.orders| && !Landed(s.deals, d.key) && d.scope == ScopeOf(s.orders[d.order])
    requires P.ApplyFill(BookAt(s, d.scope), d.fill, d.scope.mode, PointValue(d.scope.symbol)) == P.Done(book)
    ensures var n := Store(s.rows, s.deals + [d], FilledOrders(s, d), s.books[d.scope := book]);
      && StoreTyped(n) && DealsOk(n.deals) && Distinct(n.deals) && BooksFold(n) && OrdersFold(n)
      && Landed(n.deals, d.key) && (forall key :: Landed(s.deals, key) ==> Landed(n.deals, key))
  {
    var orders := FilledOrders(s, d);
    assert P.BookOk(BookAt(s, d.scope));
    BookStaysOk(BookAt(s, d.scope), d.fill, d.scope.mode, PointValue(d.scope.symbol));
    KeysAfter(s.deals, d);
    TypedAfter(s, d, book, orders, s.deals + [d]);
    BooksAfter(s, d, book, orders);
    LandedOrders(s, d, orders);
  }

  lemma BooksAfter(s: Store, d: Deal, book: P.Book, orders: seq<Booked>)
    requires DealsOk(s.deals) && P.FillOk(d.fill) && BooksFold(s) && P.BookOk(BookAt(s, d.scope))
    requires P.ApplyFill(BookAt(s, d.scope), d.fill, d.scope.mode, PointValue(d.scope.symbol)) == P.Done(book)
    ensures DealsOk(s.deals + [d]) && BooksFold(Store(s.rows, s.deals + [d], orders, s.books[d.scope := book]))
  {
    LandedBooks(s, d, book);
    var n := Store(s.rows, s.deals + [d], orders, s.books[d.scope := book]);
    forall scope ensures BookAt(n, scope) == FoldedBook(n.deals, scope) {
      assert BookAt(s.(books := s.books[d.scope := book]), scope) == FoldedBook(s.deals + [d], scope);
    }
  }

  lemma DealOutcome(s: Store, owner: Option<UserId>, r: Report)
    requires Inv(s) && ReportOk(r) && ProcessDeal(s, owner, r).Lands?
    ensures var o := ProcessDeal(s, owner, r); var n := Store(s.rows, o.deals, o.orders, o.books);
      && StoreTyped(n) && DealsOk(n.deals) && Distinct(n.deals) && BooksFold(n) && OrdersFold(n)
      && Landed(n.deals, r.key) && (forall key :: Landed(s.deals, key) ==> Landed(n.deals, key))
  {
    LandingShape(s, owner, r);
    if !Landed(s.deals, r.key) {
      var o := ProcessDeal(s, owner, r);
      var d := o.deals[|s.deals|];
      assert o.deals == s.deals + [d];
      NewDeal(s, d, o.books[d.scope]);
    }
  }

  lemma RunKeeps(s: Store, i: nat, breaks: bool)
    requires Inv(s)
    ensures Inv(ProcessOne(s, i, breaks).0)
    ensures forall key :: Landed(s.deals, key) ==> Landed(ProcessOne(s, i, breaks).0.deals, key)
  {
    if i < |s.rows| && Ready(s.rows[i]) && !breaks {
      var row := s.rows[i];
      if row.body.DealBody? && ProcessDeal(s, row.owner, row.body.report).Lands? {
        DealOutcome(s, row.owner, row.body.report);
      }
      assert RowsDone(s);
      var n := ProcessOne(s, i, breaks).0;
      forall j | 0 <= j < |n.rows| ensures DoneFor(n, n.rows[j]) {
        assert DoneFor(s, s.rows[j]);
      }
    }
  }

  lemma StepKeeps(s: Store, e: Event)
    requires Inv(s) && Enabled(s, e)
    ensures Inv(Step(s, e))
  {
    var n := Step(s, e);
    match e
    case Runs(i, breaks) => RunKeeps(s, i, breaks);
    case Stages(_, _, _) => forall j | 0 <= j < |n.rows| ensures DoneFor(n, n.rows[j]) { if j < |s.rows| { assert DoneFor(s, s.rows[j]); } }
    case Releases(_, _) => forall j | 0 <= j < |n.rows| ensures DoneFor(n, n.rows[j]) { assert DoneFor(s, s.rows[j]); }
    case Places(o) => PlacedOrder(s, o);
    case Numbers(_, _, _, _) => forall j | 0 <= j < |n.rows| ensures DoneFor(n, n.rows[j]) { assert DoneFor(s, s.rows[j]); }
  }

  lemma PlacedFold(s: Store, o: Booked)
    requires DealsOk(s.deals) && OrdersFold(s) && o.filled == P.Filled(0, 0.0)
    ensures OrdersFold(s.(orders := s.orders + [o]))
  {
    NoFillsFor(s.deals, |s.orders|);
  }

  lemma PlacedOrder(s: Store, o: Booked)
    requires Inv(s) && o.filled == P.Filled(0, 0.0)
    ensures Inv(s.(orders := s.orders + [o]))
  {
    var n := s.(orders := s.orders + [o]);
    PlacedFold(s, o);
    forall scope ensures BookAt(n, scope) == FoldedBook(n.deals, scope) { assert BookAt(s, scope) == FoldedBook(s.deals, scope); }
    forall j | 0 <= j < |n.rows| ensures DoneFor(n, n.rows[j]) { assert DoneFor(s, s.rows[j]); }
  }

  lemma {:induction false} NoFillsFor(deals: seq<Deal>, order: nat)
    requires forall j :: 0 <= j < |deals| ==> deals[j].order != order
    ensures FillsFor(deals, order) == []
  {
    if deals != [] { NoFillsFor(deals[..|deals| - 1], order); }
  }

  // ---- Whole runs ----

  ghost predicate Run(stores: seq<Store>, events: seq<Event>) {
    && |stores| == |events| + 1 && stores[0] == Blank
    && forall i :: 0 <= i < |events| ==> StoreTyped(stores[i]) && Enabled(stores[i], events[i]) && stores[i + 1] == Step(stores[i], events[i])
  }

  lemma {:induction false} InvOverRun(stores: seq<Store>, events: seq<Event>, n: nat)
    requires Run(stores, events) && n < |stores|
    ensures Inv(stores[n])
  {
    if n == 0 {
      assert Inv(Blank);
    } else {
      InvOverRun(stores, events, n - 1);
      StepKeeps(stores[n - 1], events[n - 1]);
    }
  }

  /** Rows keep what they were staged with, and orders what gives a deal its scope and kind. */
  predicate SameOrigins(s: Store, n: Store) {
    && |s.rows| <= |n.rows| && (forall i :: 0 <= i < |s.rows| ==> n.rows[i].body == s.rows[i].body)
    && |s.orders| <= |n.orders|
    && (forall k :: 0 <= k < |s.orders| ==> ScopeOf(n.orders[k]) == ScopeOf(s.orders[k]) && n.orders[k].octype == s.orders[k].octype)
  }

  lemma StepOrigins(s: Store, e: Event)
    requires StoreTyped(s) && Enabled(s, e)
    ensures SameOrigins(s, Step(s, e))
  {
  }

  lemma StillTold(s: Store, n: Store, d: Deal)
    requires SameOrigins(s, n) && Sourced(s, d)
    ensures Sourced(n, d)
  {
    var i :| 0 <= i < |s.rows| && Told(s, d, i);
    assert Told(n, d, i);
  }

  /** The deal a row lands is the one its report tells of. */
  lemma LandsAsTold(s: Store, i: nat, breaks: bool, j: nat)
    requires Inv(s) && |s.deals| <= j < |ProcessOne(s, i, breaks).0.deals|
    ensures j == |s.deals| && i < |s.rows| && Told(s, ProcessOne(s, i, breaks).0.deals[j], i)
    ensures ProcessOne(s, i, breaks).0.deals[..j] == s.deals
  {
    LandingShape(s, s.rows[i].owner, s.rows[i].body.report);
  }

  lemma OldDeals(s: Store, e: Event)
    requires Inv(s) && Enabled(s, e)
    ensures |s.deals| <= |Step(s, e).deals| && Step(s, e).deals[..|s.deals|] == s.deals
    ensures |Step(s, e).deals| > |s.deals| ==> e.Runs?
  {
    if e.Runs? && |ProcessOne(s, e.i, e.breaks).0.deals| > |s.deals| { LandsAsTold(s, e.i, e.breaks, |s.deals|); }
  }

  lemma ToldStep(s: Store, e: Event)
    requires Inv(s) && Enabled(s, e) && DealsTold(s)
    ensures DealsTold(Step(s, e))
  {
    var n := Step(s, e);
    StepOrigins(s, e);
    OldDeals(s, e);
    forall j | 0 <= j < |n.deals| ensures Sourced(n, n.deals[j]) {
      if j < |s.deals| {
        assert n.deals[..|s.deals|][j] == s.deals[j];
        assert Sourced(s, s.deals[j]);
      } else {
        LandsAsTold(s, e.i, e.breaks, j);
        assert Told(s, n.deals[j], e.i);
      }
      StillTold(s, n, n.deals[j]);
    }
  }

  /** Every landed deal is a report that was staged: its quantity, price, fee and side are the report's,
      its kind and scope are its order's. */
  lemma {:induction false} DealsAreReports(stores: seq<Store>, events: seq<Event>, n: nat)
    requires Run(stores, events) && n < |stores|
    ensures DealsTold(stores[n])
  {
    if n > 0 {
      DealsAreReports(stores, events, n - 1);
      InvOverRun(stores, events, n - 1);
      ToldStep(stores[n - 1], events[n - 1]);
    }
  }

  /** Main result: after any sequence of staged rows, duplicates, failures, quarantines, releases and
      retries, every book and every order's filled quantity and average are the fold of the distinct
      deals, once each, in landing order. */
  lemma WorkerRefinesFold(stores: seq<Store>, events: seq<Event>, n: nat)
    requires Run(stores, events) && n < |stores|
    ensures var s := stores[n];
      && DealsOk(s.deals) && Distinct(s.deals)
      && (forall scope :: BookAt(s, scope) == P.Folded(FillsOf(s.deals, scope), scope.mode, PointValue(scope.symbol)))
      && (forall k :: 0 <= k < |s.orders| ==> s.orders[k].filled == P.AddFills(FillsFor(s.deals, k)))
  {
    InvOverRun(stores, events, n);
    var s := stores[n];
    forall scope ensures BookAt(s, scope) == P.Folded(FillsOf(s.deals, scope), scope.mode, PointValue(scope.symbol)) {
      assert BookAt(s, scope) == FoldedBook(s.deals, scope);
    }
  }

  /** The step at which a row became done: its transaction landed, or it was found dead, or it was
      staged as a violation of its scope. */
  predicate BecomesDone(s: Store, e: Event, i: nat)
    requires StoreTyped(s)
  {
    if e.Stages? then i == |s.rows| && e.violation
    else
      e.Runs? && e.i == i && i < |s.rows| && !e.breaks && Ready(s.rows[i])
      && match Process(s, s.rows[i])
         case Lands(_, orders, _) => s.rows[i].body.StatusBody? ==> Taken(s, s.rows[i].body, orders)
         case Refuses(reason) => Dead(reason)
  }

  /** The status reached its order, under the guard, and nothing else changed. */
  predicate Taken(s: Store, b: Body, orders: seq<Booked>)
    requires b.StatusBody?
  {
    var a := Associate(s, b.account, b.mode, b.ordno, b.brokerId);
    a.Found? && orders == s.orders[a.order := s.orders[a.order].(status := Moved(s.orders[a.order].status, b.status))]
  }

  lemma DoneStep(s: Store, e: Event, i: nat)
    requires StoreTyped(s) && Enabled(s, e) && i < |Step(s, e).rows| && Step(s, e).rows[i].processed
    ensures (i < |s.rows| && s.rows[i].processed) || BecomesDone(s, e, i)
  {
  }

  /** Every row that is done became so at some step, by landing its deal or status or by being dead. */
  lemma {:induction false} DoneRowsHaveAReason(stores: seq<Store>, events: seq<Event>, n: nat, i: nat)
    requires Run(stores, events) && n < |stores| && i < |stores[n].rows| && stores[n].rows[i].processed
    ensures exists k :: 0 <= k < n && BecomesDone(stores[k], events[k], i)
    ensures var s := stores[n]; var row := s.rows[i];
      !row.quarantine && row.body.DealBody? ==> Landed(s.deals, row.body.report.key)
  {
    InvOverRun(stores, events, n);
    assert DoneFor(stores[n], stores[n].rows[i]);
    if n > 0 {
      var s := stores[n - 1];
      DoneStep(s, events[n - 1], i);
      if i < |s.rows| && s.rows[i].processed {
        DoneRowsHaveAReason(stores, events, n - 1, i);
      } else {
        assert BecomesDone(stores[n - 1], events[n - 1], i);
      }
    }
  }

  /** Cash and lots are conserved through the whole pipeline, for every scope, at every point. */
  lemma PipelineConserves(stores: seq<Store>, events: seq<Event>, n: nat, scope: Scope)
    requires Run(stores, events) && n < |stores|
    ensures DealsOk(stores[n].deals)
    ensures var s := stores[n]; var fills := FillsOf(s.deals, scope); var pv := PointValue(scope.symbol);
      && P.Cash(fills, scope.mode, pv) == P.Worth(BookAt(s, scope), pv)
      && P.NetFilled(fills, scope.mode, pv) == P.Net(BookAt(s, scope))
  {
    WorkerRefinesFold(stores, events, n);
    P.CashIsConserved(FillsOf(stores[n].deals, scope), scope.mode, PointValue(scope.symbol));
  }

  /** A row that does not land leaves books, orders, deals and every other row as they were; if it was
      refused it is quarantined, and if nothing was foreseen it is untouched. */
  lemma FailedRowsLeaveNothing(s: Store, i: nat, breaks: bool)
    requires StoreTyped(s) && !ProcessOne(s, i, breaks).1
    ensures var n := ProcessOne(s, i, breaks).0;
      && n.deals == s.deals && n.orders == s.orders && n.books == s.books && |n.rows| == |s.rows|
      && (forall j :: 0 <= j < |s.rows| && j != i ==> n.rows[j] == s.rows[j])
      && (i < |s.rows| && Ready(s.rows[i]) && !breaks ==> n.rows[i].quarantine && n.rows[i].reason.Some?)
      && (breaks ==> n == s)
  {
  }
}
