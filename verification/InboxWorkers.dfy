/** The worker that drives the report pipeline in batches, with its one fast retry per landing batch. */
module InboxWorkers {
  import opened Common
  import opened Inbox
  import R = InboxRefines

  /** The first rows in id order that are ready for this owner's worker. */
  function Unprocessed(rows: seq<RawRow>, owner: Option<UserId>, from: nat, limit: nat): (r: seq<nat>)
    ensures |r| <= limit
    ensures forall j :: 0 <= j < |r| ==> from <= r[j] < |rows| && Ready(rows[r[j]]) && (owner == None || rows[r[j]].owner == owner)
    ensures forall i, j :: 0 <= i < j < |r| ==> r[i] < r[j]
    decreases |rows| - from
  {
    if from >= |rows| || limit == 0 then []
    else if Ready(rows[from]) && (owner == None || rows[from].owner == owner) then
      [from] + Unprocessed(rows, owner, from + 1, limit - 1)
    else Unprocessed(rows, owner, from + 1, limit)
  }

  /** The first quarantined rows a retry may release. */
  function FirstReleasable(rows: seq<RawRow>, owner: Option<UserId>, from: nat, limit: nat): (r: set<nat>)
    ensures forall i :: i in r ==> from <= i < |rows| && Releasable(rows[i], owner)
    ensures limit > 0 && (exists i :: from <= i < |rows| && Releasable(rows[i], owner)) ==> r != {}
    decreases |rows| - from
  {
    if from >= |rows| || limit == 0 then {}
    else if Releasable(rows[from], owner) then {from} + FirstReleasable(rows, owner, from + 1, limit - 1)
    else FirstReleasable(rows, owner, from + 1, limit)
  }

  /** The row is refused for want of its order, for now. */
  predicate PutsAside(s: Store, i: nat, breaks: bool)
    requires StoreTyped(s)
  {
    i < |s.rows| && Ready(s.rows[i]) && !breaks && Process(s, s.rows[i]) == Refuses(AssociationPending)
  }

  /** What a pass over some rows comes to. */
  datatype Pass = Pass(store: Store, landed: nat, handled: nat, aside: bool)

  /** Rows processed one after another; those in `broken` fail unforeseen and are not counted. */
  function RunAll(s: Store, ids: seq<nat>, broken: set<nat>): (r: Pass)
    requires R.Inv(s)
    ensures R.Inv(r.store) && r.landed <= r.handled
    ensures forall key :: Landed(s.deals, key) ==> Landed(r.store.deals, key)
    decreases |ids|
  {
    if ids == [] then Pass(s, 0, 0, false)
    else
      RunNext(RunAll(s, ids[..|ids| - 1], broken), ids[|ids| - 1], broken)
  }

  function RunNext(p: Pass, i: nat, broken: set<nat>): (r: Pass)
    requires R.Inv(p.store) && p.landed <= p.handled
    ensures R.Inv(r.store) && r.landed <= r.handled
    ensures forall key :: Landed(p.store.deals, key) ==> Landed(r.store.deals, key)
  {
    R.RunKeeps(p.store, i, i in broken);
    var (n, lands) := ProcessOne(p.store, i, i in broken);
    Pass(n, p.landed + if lands then 1 else 0, p.handled + if i in broken then 0 else 1, p.aside || PutsAside(p.store, i, i in broken))
  }

  lemma RunOneMore(s: Store, ids: seq<nat>, k: nat, broken: set<nat>)
    requires R.Inv(s) && k < |ids|
    ensures RunAll(s, ids[..k + 1], broken) == RunNext(RunAll(s, ids[..k], broken), ids[k], broken)
  {
    assert ids[..k + 1][..k] == ids[..k];
  }

  /** A worker's memory between batches. */
  datatype Guard = Guard(maybePending: bool, lastRetry: Option<set<nat>>)

  function Names(ids: seq<nat>): set<nat> { set i | i in ids }

  const ReleaseLimit := 200

  /** The fast retry: release what waits for its order, run it once, and give up on a set that has now
      been tried twice without anything landing. */
  function Retry(s: Store, g: Guard, owner: Option<UserId>, limit: nat, broken: set<nat>): (r: (Store, Guard, nat))
    requires R.Inv(s)
    ensures R.Inv(r.0)
  {
    var chosen := FirstReleasable(s.rows, owner, 0, ReleaseLimit);
    if chosen == {} then (s, Guard(false, None), 0)
    else
      R.StepKeeps(s, Releases(owner, chosen));
      var freed := Step(s, Releases(owner, chosen));
      var ids := Unprocessed(freed.rows, owner, 0, limit);
      var p := RunAll(freed, ids, broken);
      (p.store,
       Guard((g.maybePending || p.aside) && !(p.landed == 0 && g.lastRetry == Some(Names(ids))), Some(Names(ids))),
       p.handled)
  }

  /** A retry may fail as a whole before its release, or after the release has committed. */
  datatype Fault = NoFault | AtRelease | AtRescan

  function Freed(s: Store, owner: Option<UserId>): (n: Store)
    requires R.Inv(s)
    ensures R.Inv(n)
  {
    var chosen := FirstReleasable(s.rows, owner, 0, ReleaseLimit);
    R.StepKeeps(s, Releases(owner, chosen));
    Step(s, Releases(owner, chosen))
  }

  function Batch(s: Store, g: Guard, owner: Option<UserId>, limit: nat, broken: set<nat>, fault: Fault, brokenAgain: set<nat>)
    : (r: (Store, Guard, nat))
    requires R.Inv(s)
    ensures R.Inv(r.0)
  {
    var p := RunAll(s, Unprocessed(s.rows, owner, 0, limit), broken);
    var after := g.(maybePending := g.maybePending || p.aside);
    AfterPass(p.store, p.landed, p.handled, after, owner, limit, fault, brokenAgain)
  }

  /** Only a batch in which something landed retries, once, and only while the guard is armed. */
  function AfterPass(s: Store, landed: nat, handled: nat, g: Guard, owner: Option<UserId>, limit: nat,
                     fault: Fault, brokenAgain: set<nat>)
    : (r: (Store, Guard, nat))
    requires R.Inv(s)
    ensures R.Inv(r.0)
  {
    if landed == 0 || !g.maybePending || fault.AtRelease? then (s, g, handled)
    else if fault.AtRescan? then
      if FirstReleasable(s.rows, owner, 0, ReleaseLimit) == {} then (s, Guard(false, None), handled)
      else (Freed(s, owner), g, handled)
    else
      var (n, h, more) := Retry(s, g, owner, limit, brokenAgain);
      (n, h, handled + more)
  }

  /** The guard goes off only over nothing to release or over the very set that already failed once,
      and a set seen for the first time always gets its retry. */
  lemma GuardGivesASecondChance(s: Store, g: Guard, owner: Option<UserId>, limit: nat, broken: set<nat>)
    requires R.Inv(s) && g.maybePending
    ensures var chosen := FirstReleasable(s.rows, owner, 0, ReleaseLimit);
      var freed := Release(s.rows, owner, chosen);
      var ids := Names(Unprocessed(freed, owner, 0, limit));
      var r := Retry(s, g, owner, limit, broken);
      && (chosen == {} <==> forall i :: 0 <= i < |s.rows| ==> !Releasable(s.rows[i], owner))
      && (!r.1.maybePending ==> chosen == {} || g.lastRetry == Some(ids))
      && (chosen != {} && g.lastRetry != Some(ids) ==> r.1 == Guard(true, Some(ids)))
  {
  }

  class RawInboxWorker {
    const owner: Option<UserId>
    const limit: nat
    var store: Store
    var maybePending: bool
    var lastRetry: Option<set<nat>>

    function Memory(): Guard
      reads this
    {
      Guard(maybePending, lastRetry)
    }

    constructor (owner: Option<UserId>, limit: nat, store: Store)
      ensures this.owner == owner && this.limit == limit && this.store == store && Memory() == Guard(true, None)
    {
      this.owner, this.limit, this.store := owner, limit, store;
      maybePending, lastRetry := true, None;
    }

    /** One row's transaction; putting a row aside re-arms the guard. */
    method ProcessRow(i: nat, breaks: bool) returns (landed: bool)
      requires R.Inv(store)
      modifies this`store, this`maybePending
      ensures R.Inv(store) && (store, landed) == ProcessOne(old(store), i, breaks)
      ensures maybePending == (old(maybePending) || PutsAside(old(store), i, breaks))
    {
      R.RunKeeps(store, i, breaks);
      if PutsAside(store, i, breaks) {
        maybePending := true;
      }
      var (n, lands) := ProcessOne(store, i, breaks);
      store := n;
      landed := lands;
    }

    method RunRows(ids: seq<nat>, broken: set<nat>) returns (landed: nat, handled: nat)
      requires R.Inv(store)
      modifies this`store, this`maybePending
      ensures R.Inv(store)
      ensures var p := RunAll(old(store), ids, broken);
        store == p.store && landed == p.landed && handled == p.handled && maybePending == (old(maybePending) || p.aside)
    {
      landed, handled := 0, 0;
      var k := 0;
      ghost var p := Pass(store, 0, 0, false);
      while k < |ids|
        invariant 0 <= k <= |ids| && R.Inv(store)
        invariant p == RunAll(old(store), ids[..k], broken)
        invariant store == p.store && landed == p.landed && handled == p.handled
        invariant maybePending == (old(maybePending) || p.aside)
      {
        RunOneMore(old(store), ids, k, broken);
        p := RunNext(p, ids[k], broken);
        var lands := ProcessRow(ids[k], ids[k] in broken);
        if lands {
          landed := landed + 1;
        }
        if ids[k] !in broken {
          handled := handled + 1;
        }
        k := k + 1;
      }
      assert ids[..k] == ids;
    }

    method RetryAssociationPendingOnce(broken: set<nat>) returns (retried: nat)
      requires R.Inv(store)
      modifies this
      ensures R.Inv(store)
      ensures (store, Memory(), retried) == Retry(old(store), old(Memory()), owner, limit, broken)
    {
      var chosen := FirstReleasable(store.rows, owner, 0, ReleaseLimit);
      if chosen == {} {
        maybePending, lastRetry := false, None;
        return 0;
      }
      R.StepKeeps(store, Releases(owner, chosen));
      store := store.(rows := Release(store.rows, owner, chosen));
      var ids := Unprocessed(store.rows, owner, 0, limit);
      var landed, handled := RunRows(ids, broken);
      var same := lastRetry == Some(Names(ids));
      if landed == 0 && same {
        maybePending := false;
      }
      lastRetry := Some(Names(ids));
      retried := handled;
    }

    /** One batch. A retry that fails as a whole leaves at most its release behind. */
    method ProcessBatchOnce(broken: set<nat>, fault: Fault, brokenAgain: set<nat>) returns (handled: nat)
      requires R.Inv(store)
      modifies this
      ensures R.Inv(store)
      ensures (store, Memory(), handled) == Batch(old(store), old(Memory()), owner, limit, broken, fault, brokenAgain)
    {
      var ids := Unprocessed(store.rows, owner, 0, limit);
      var landed;
      landed, handled := RunRows(ids, broken);
      handled := FastRetry(landed, handled, fault, brokenAgain);
    }

    method FastRetry(landed: nat, before: nat, fault: Fault, broken: set<nat>) returns (handled: nat)
      requires R.Inv(store)
      modifies this
      ensures R.Inv(store)
      ensures (store, Memory(), handled)
           == AfterPass(old(store), landed, before, old(Memory()), owner, limit, fault, broken)
    {
      handled := before;
      if landed == 0 || !maybePending || fault.AtRelease? {
        return;
      }
      if fault.AtRescan? {
        ReleaseThenFail();
        return;
      }
      var more := RetryAssociationPendingOnce(broken);
      handled := handled + more;
    }

    /** The release has committed, and the rescan after it fails. */
    method ReleaseThenFail()
      requires R.Inv(store)
      modifies this
      ensures R.Inv(store)
      ensures var chosen := FirstReleasable(old(store).rows, owner, 0, ReleaseLimit);
        (store, Memory()) == if chosen == {} then (old(store), Guard(false, None)) else (Freed(old(store), owner), old(Memory()))
    {
      var chosen := FirstReleasable(store.rows, owner, 0, ReleaseLimit);
      if chosen == {} {
        maybePending, lastRetry := false, None;
      } else {
        R.StepKeeps(store, Releases(owner, chosen));
        store := store.(rows := Release(store.rows, owner, chosen));
      }
    }
  }
}
