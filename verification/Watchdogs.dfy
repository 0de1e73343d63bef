/** The periodic resolver of one user's open cancels and unknown updates: what can be settled from the
    tables alone first, the broker's quantity only for what is left. */
module Watchdogs {
  import opened Common
  import opened Ledger
  import opened Server
  import opened LedgerSteps
  import opened ReservationSteps
  import LedgerStores

  /** What asking the agent for an order's quantity comes to. */
  datatype Answer = NoAnswer | Quantity(qty: Option<int>)

  /** One update: the tables first, and only if they leave it open and the agent is there, the quantity. */
  function SettleUpdate(db: Db, id: CmdId, ready: bool, answer: Answer): (Db, bool) {
    var (offline, d) := ResolveUpdate(db, id, None);
    if d != LeftPending then (offline, true)
    else if !ready || answer.NoAnswer? then (db, false)
    else
      var (asked, e) := ResolveUpdate(db, id, answer.qty);
      (asked, e != LeftPending)
  }

  function SettleCancels(db: Db, ids: seq<CmdId>): (Db, nat) {
    if ids == [] then (db, 0)
    else
      var (before, n) := SettleCancels(db, ids[..|ids| - 1]);
      var (after, done) := ResolveCancel(before, ids[|ids| - 1]);
      (after, n + if done then 1 else 0)
  }

  function AnswerFor(answers: map<CmdId, Answer>, id: CmdId): Answer { if id in answers then answers[id] else NoAnswer }

  function SettleUpdates(db: Db, ids: seq<CmdId>, ready: bool, answers: map<CmdId, Answer>): (Db, nat) {
    if ids == [] then (db, 0)
    else
      var (before, n) := SettleUpdates(db, ids[..|ids| - 1], ready, answers);
      var id := ids[|ids| - 1];
      var (after, done) := SettleUpdate(before, id, ready, AnswerFor(answers, id));
      (after, n + if done then 1 else 0)
  }

  function Round(db: Db, cancels: seq<CmdId>, updates: seq<CmdId>, ready: bool, answers: map<CmdId, Answer>): (Db, nat) {
    var (mid, n) := SettleCancels(db, cancels);
    var (end, m) := SettleUpdates(mid, updates, ready, answers);
    (end, n + m)
  }

  lemma CancelsOneMore(db: Db, ids: seq<CmdId>, i: nat)
    requires i < |ids|
    ensures var (before, n) := SettleCancels(db, ids[..i]); var (after, done) := ResolveCancel(before, ids[i]);
      SettleCancels(db, ids[..i + 1]) == (after, n + if done then 1 else 0)
  {
    assert ids[..i + 1][..i] == ids[..i];
  }

  lemma UpdatesOneMore(db: Db, ids: seq<CmdId>, i: nat, ready: bool, answers: map<CmdId, Answer>)
    requires i < |ids|
    ensures var (before, n) := SettleUpdates(db, ids[..i], ready, answers);
      var (after, done) := SettleUpdate(before, ids[i], ready, AnswerFor(answers, ids[i]));
      SettleUpdates(db, ids[..i + 1], ready, answers) == (after, n + if done then 1 else 0)
  {
    assert ids[..i + 1][..i] == ids[..i];
  }

  /** One update in place. */
  method ReconcileUpdate(store: LedgerStores.LedgerStore, id: CmdId, ready: bool, answer: Answer) returns (done: bool)
    modifies store
    ensures (store.View(), done) == SettleUpdate(old(store.View()), id, ready, answer)
  {
    OfflineOnlyConfirms(store.View(), id);
    var d := store.ResolveUpdateViaQueryQty(id, None);
    if d != LeftPending {
      return true;
    }
    if !ready || answer.NoAnswer? {
      return false;
    }
    var e := store.ResolveUpdateViaQueryQty(id, answer.qty);
    return e != LeftPending;
  }

  method ReconcileCancels(store: LedgerStores.LedgerStore, ids: seq<CmdId>) returns (resolved: nat)
    modifies store
    ensures (store.View(), resolved) == SettleCancels(old(store.View()), ids)
  {
    resolved := 0;
    var i := 0;
    while i < |ids|
      invariant 0 <= i <= |ids|
      invariant (store.View(), resolved) == SettleCancels(old(store.View()), ids[..i])
    {
      CancelsOneMore(old(store.View()), ids, i);
      var done := store.ResolveCancelViaReport(ids[i]);
      if done {
        resolved := resolved + 1;
      }
      i := i + 1;
    }
    assert ids[..i] == ids;
  }

  /** One failed question does not stop the others. */
  method ReconcileUpdates(store: LedgerStores.LedgerStore, ids: seq<CmdId>, ready: bool, answers: map<CmdId, Answer>)
    returns (resolved: nat)
    modifies store
    ensures (store.View(), resolved) == SettleUpdates(old(store.View()), ids, ready, answers)
  {
    resolved := 0;
    var i := 0;
    while i < |ids|
      invariant 0 <= i <= |ids|
      invariant (store.View(), resolved) == SettleUpdates(old(store.View()), ids[..i], ready, answers)
    {
      UpdatesOneMore(old(store.View()), ids, i, ready, answers);
      var done := ReconcileUpdate(store, ids[i], ready, AnswerFor(answers, ids[i]));
      if done {
        resolved := resolved + 1;
      }
      i := i + 1;
    }
    assert ids[..i] == ids;
  }

  /** A whole round in place. */
  method Reconcile(store: LedgerStores.LedgerStore, cancels: seq<CmdId>, updates: seq<CmdId>, ready: bool, answers: map<CmdId, Answer>)
    returns (resolved: nat)
    modifies store
    ensures (store.View(), resolved) == Round(old(store.View()), cancels, updates, ready, answers)
  {
    var closed := ReconcileCancels(store, cancels);
    var settled := ReconcileUpdates(store, updates, ready, answers);
    resolved := closed + settled;
  }

  // ---- What a round can and cannot do ----

  /** Without a quantity the resolver either leaves everything alone or confirms. */
  lemma OfflineOnlyConfirms(db: Db, id: CmdId)
    ensures var (next, d) := ResolveUpdate(db, id, None);
      && (d == LeftPending ==> next == db) && d != ConfirmedByQty && d != ReleasedByQty
      && next.orders == db.orders
      && (next.quotas == db.quotas || (id in db.commands && next.quotas == SettleOpt(db.quotas, db.commands[id].reservation, Confirmed)))
  {
  }

  /** A terminal order is settled conservatively even when the broker's quantity would have decided;
      any other order is settled by the quantity, exactly as the resolver decides it. */
  lemma TerminalComesFirst(db: Db, id: CmdId, answer: Answer)
    requires id in db.commands && !db.commands[id].resolved && db.commands[id].ordno.Some? && answer.Quantity?
    requires FindOrdno(db.orders, db.commands[id].account, db.commands[id].mode, db.commands[id].ordno.value) < |db.orders|
    ensures var c := db.commands[id]; var o := db.orders[FindOrdno(db.orders, c.account, c.mode, c.ordno.value)];
      SettleUpdate(db, id, true, answer).0 ==
        if TerminalForResolver(o.status) then ResolveUpdate(db, id, None).0 else ResolveUpdate(db, id, answer.qty).0
  {
  }

  lemma {:induction false} UpdatesOfflineOnlyConfirm(db: Db, ids: seq<CmdId>, answers: map<CmdId, Answer>)
    ensures SettleUpdates(db, ids, false, answers).0.orders == db.orders
    ensures KeepsRequests(db.commands, SettleUpdates(db, ids, false, answers).0.commands)
  {
    if ids != [] {
      var before := SettleUpdates(db, ids[..|ids| - 1], false, answers).0;
      var id := ids[|ids| - 1];
      UpdatesOfflineOnlyConfirm(db, ids[..|ids| - 1], answers);
      OfflineOnlyConfirms(before, id);
      QueryLedger(before, id, None);
    }
  }

  /** While the agent is away a round moves no order, and what is resolved stays as it was. */
  lemma OfflineRoundMovesNoOrder(db: Db, cancels: seq<CmdId>, updates: seq<CmdId>, answers: map<CmdId, Answer>)
    ensures var mid := SettleCancels(db, cancels).0; var end := SettleUpdates(mid, updates, false, answers).0;
      end.orders == db.orders && mid.quotas == db.quotas && KeepsRequests(db.commands, mid.commands) && KeepsRequests(mid.commands, end.commands)
  {
    CancelsMoveNothing(db, cancels);
    UpdatesOfflineOnlyConfirm(SettleCancels(db, cancels).0, updates, answers);
  }

  lemma {:induction false} CancelsMoveNothing(db: Db, ids: seq<CmdId>)
    ensures var mid := SettleCancels(db, ids).0;
      mid.orders == db.orders && mid.quotas == db.quotas && KeepsRequests(db.commands, mid.commands)
  {
    if ids != [] {
      CancelsMoveNothing(db, ids[..|ids| - 1]);
      QueryLedger(SettleCancels(db, ids[..|ids| - 1]).0, ids[|ids| - 1], None);
    }
  }

  /** What the round's two queries list: open cancels, and updates that are settled or known to be unknown. */
  predicate IsCancel(db: Db, id: CmdId) { id in db.commands && db.commands[id].kind == Cancel }

  predicate IsUnsure(db: Db, id: CmdId) {
    id in db.commands && db.commands[id].kind == Update && (db.commands[id].resolved || db.commands[id].outcome == Some(OutUnknown))
  }

  /** Rows move only by being resolved. */
  predicate OnlyResolves(commands: map<CmdId, Command>, next: map<CmdId, Command>) {
    forall id | id in commands :: id in next && (next[id] == commands[id] || (next[id].resolved && next[id].kind == commands[id].kind))
  }

  lemma OneCancelKeeps(s: State, id: CmdId, limit: int)
    requires FullInv(s, limit) && IsCancel(s.db, id)
    ensures FullInv(s.(db := ResolveCancel(s.db, id).0), limit) && OnlyResolves(s.db.commands, ResolveCancel(s.db, id).0.commands)
  {
    StepKeeps(s, CancelReported(id), limit);
  }

  lemma OneQueryKeeps(s: State, id: CmdId, realQty: Option<int>, limit: int)
    requires FullInv(s, limit) && IsUnsure(s.db, id)
    ensures FullInv(s.(db := ResolveUpdate(s.db, id, realQty).0), limit)
  {
    if s.db.commands[id].resolved {
      assert ResolveUpdate(s.db, id, realQty).0 == s.db;
    } else {
      StepKeeps(s, QuantityQueried(id, realQty), limit);
    }
  }

  lemma QueryResolves(db: Db, id: CmdId, realQty: Option<int>)
    ensures OnlyResolves(db.commands, ResolveUpdate(db, id, realQty).0.commands)
  {
  }

  lemma UpdateResolves(db: Db, id: CmdId, ready: bool, answer: Answer)
    ensures OnlyResolves(db.commands, SettleUpdate(db, id, ready, answer).0.commands)
  {
    QueryResolves(db, id, None);
    if answer.Quantity? { QueryResolves(db, id, answer.qty); }
  }

  lemma {:induction false} UpdatesResolve(db: Db, ids: seq<CmdId>, ready: bool, answers: map<CmdId, Answer>)
    ensures OnlyResolves(db.commands, SettleUpdates(db, ids, ready, answers).0.commands)
  {
    if ids != [] {
      var front, id := ids[..|ids| - 1], ids[|ids| - 1];
      UpdatesResolve(db, front, ready, answers);
      UpdateResolves(SettleUpdates(db, front, ready, answers).0, id, ready, AnswerFor(answers, id));
    }
  }

  lemma OneUpdateKeeps(s: State, id: CmdId, ready: bool, answer: Answer, limit: int)
    requires FullInv(s, limit) && IsUnsure(s.db, id)
    ensures FullInv(s.(db := SettleUpdate(s.db, id, ready, answer).0), limit)
  {
    OneQueryKeeps(s, id, None, limit);
    if answer.Quantity? {
      OneQueryKeeps(s, id, answer.qty, limit);
    }
  }

  lemma {:induction false} CancelsKeep(s: State, ids: seq<CmdId>, limit: int)
    requires FullInv(s, limit) && forall i :: 0 <= i < |ids| ==> IsCancel(s.db, ids[i])
    ensures FullInv(s.(db := SettleCancels(s.db, ids).0), limit)
    ensures OnlyResolves(s.db.commands, SettleCancels(s.db, ids).0.commands)
  {
    if ids != [] {
      var front, id := ids[..|ids| - 1], ids[|ids| - 1];
      assert forall i :: 0 <= i < |front| ==> front[i] == ids[i];
      CancelsKeep(s, front, limit);
      assert IsCancel(s.db, id);
      OneCancelKeeps(s.(db := SettleCancels(s.db, front).0), id, limit);
    } else {
      assert s.(db := s.db) == s;
    }
  }

  lemma StillUnsure(db: Db, next: Db, id: CmdId)
    requires IsUnsure(db, id) && OnlyResolves(db.commands, next.commands)
    ensures IsUnsure(next, id)
  {
  }

  lemma {:induction false} UpdatesKeep(s: State, ids: seq<CmdId>, ready: bool, answers: map<CmdId, Answer>, limit: int)
    requires FullInv(s, limit) && forall i :: 0 <= i < |ids| ==> IsUnsure(s.db, ids[i])
    ensures FullInv(s.(db := SettleUpdates(s.db, ids, ready, answers).0), limit)
  {
    if ids != [] {
      var front, id := ids[..|ids| - 1], ids[|ids| - 1];
      assert forall i :: 0 <= i < |front| ==> front[i] == ids[i];
      UpdatesKeep(s, front, ready, answers, limit);
      UpdatesResolve(s.db, front, ready, answers);
      var mid := s.(db := SettleUpdates(s.db, front, ready, answers).0);
      StillUnsure(s.db, mid.db, id);
      OneUpdateKeeps(mid, id, ready, AnswerFor(answers, id), limit);
    } else {
      assert s.(db := s.db) == s;
    }
  }

  /** A whole round keeps the exposure invariant, whatever the answers are. */
  lemma RoundKeepsReservations(s: State, cancels: seq<CmdId>, updates: seq<CmdId>, ready: bool, answers: map<CmdId, Answer>, limit: int)
    requires FullInv(s, limit)
    requires forall i :: 0 <= i < |cancels| ==> IsCancel(s.db, cancels[i])
    requires forall i :: 0 <= i < |updates| ==> IsUnsure(s.db, updates[i])
    ensures FullInv(s.(db := Round(s.db, cancels, updates, ready, answers).0), limit)
  {
    CancelsKeep(s, cancels, limit);
    var mid := s.(db := SettleCancels(s.db, cancels).0);
    forall i | 0 <= i < |updates| ensures IsUnsure(mid.db, updates[i]) { StillUnsure(s.db, mid.db, updates[i]); }
    UpdatesKeep(mid, updates, ready, answers, limit);
  }
}
