/** The agent's runner in place: how it takes a command from the wire, and how its failstop latch,
    health epoch and sentinel file move together. */
module AgentRunners {
  import opened Common
  import opened Ledger
  import opened Buffers
  import K = AgentLink
  import H = Health

  // ---- The latch and what is kept of it ----

  /** The sentinel file beside the buffer: a file that cannot be read still counts as one. */
  datatype Sentinel = Absent | Holds(epoch: int) | Unreadable

  datatype Latching = Latching(latched: bool, epoch: int, sentinel: Sentinel, stored: int)

  function Reloaded(h: Latching): Latching {
    match h.sentinel
    case Absent => h.(epoch := h.stored)
    case Holds(e) => h.(latched := true, epoch := H.Max(e, h.stored))
    case Unreadable => h.(latched := true, epoch := h.stored)
  }

  function Tripped(h: Latching, written: bool): Latching {
    Latching(true, h.epoch + 1, if written then Holds(h.epoch + 1) else h.sentinel, h.stored)
  }

  /** The recovery at the start of a process: all of its steps, or the latch stays. */
  function Probed(h: Latching, probeOk: bool, storeOk: bool, clearOk: bool): Latching {
    if !h.latched || !probeOk || !storeOk then h
    else if !clearOk then h.(stored := h.epoch)
    else Latching(false, h.epoch, Absent, h.epoch)
  }

  datatype Op =
    | Reload
    | Trip(written: bool)
    | ChildMarks
    | Damage

  /** What may happen within one process after its start. */
  function Do(h: Latching, op: Op): Latching {
    match op
    case Reload => Reloaded(h)
    case Trip(written) => Tripped(h, written)
    case ChildMarks => h.(sentinel := Holds(-1))
    case Damage => if h.sentinel == Absent then h else h.(sentinel := Unreadable)
  }

  function DoAll(h: Latching, ops: seq<Op>): Latching {
    if ops == [] then h else Do(DoAll(h, ops[..|ops| - 1]), ops[|ops| - 1])
  }

  lemma {:induction false} LatchStaysShut(h: Latching, ops: seq<Op>)
    ensures h.latched ==> DoAll(h, ops).latched
  {
    if ops != [] { LatchStaysShut(h, ops[..|ops| - 1]); }
  }

  // ---- One process after another ----

  /** What a crash leaves behind, and what one process does with it: the recovery at its start, then
      anything at all until it ends. */
  datatype Disk = Disk(sentinel: Sentinel, stored: int)

  datatype Life = Life(probeOk: bool, storeOk: bool, clearOk: bool, ops: seq<Op>)

  function Booted(d: Disk): Latching { Reloaded(Latching(false, 0, d.sentinel, d.stored)) }

  /** The state after the recovery and the first operations of a life. */
  function During(d: Disk, life: Life, n: nat): Latching
    requires n <= |life.ops|
  {
    DoAll(Probed(Booted(d), life.probeOk, life.storeOk, life.clearOk), life.ops[..n])
  }

  function Left(d: Disk, life: Life): Disk {
    var h := During(d, life, |life.ops|);
    Disk(h.sentinel, h.stored)
  }

  function DiskAfter(d: Disk, lives: seq<Life>): Disk {
    if lives == [] then d else Left(DiskAfter(d, lives[..|lives| - 1]), lives[|lives| - 1])
  }

  predicate Writes(op: Op) { op.ChildMarks? || op == Trip(true) }

  /** A sentinel is written in the course of this life. */
  predicate Marks(life: Life) { exists i :: 0 <= i < |life.ops| && Writes(life.ops[i]) }

  predicate Recovers(life: Life) { life.probeOk && life.storeOk && life.clearOk }

  lemma {:induction false} SentinelAfterOps(h: Latching, ops: seq<Op>)
    ensures DoAll(h, ops).sentinel != Absent <==> h.sentinel != Absent || exists i :: 0 <= i < |ops| && Writes(ops[i])
  {
    if ops != [] {
      var front := ops[..|ops| - 1];
      SentinelAfterOps(h, front);
      assert Writes(ops[|ops| - 1]) ==> exists i :: 0 <= i < |ops| && Writes(ops[i]);
      assert forall i :: 0 <= i < |front| ==> front[i] == ops[i];
    }
  }

  lemma SentinelAfterLife(d: Disk, life: Life)
    ensures Left(d, life).sentinel != Absent <==> Marks(life) || (d.sentinel != Absent && !Recovers(life))
  {
    var h := Probed(Booted(d), life.probeOk, life.storeOk, life.clearOk);
    assert life.ops[..|life.ops|] == life.ops;
    SentinelAfterOps(h, life.ops);
  }

  /** Some life wrote a sentinel and no later one has recovered. */
  ghost predicate Owed(lives: seq<Life>) {
    exists k :: 0 <= k < |lives| && Marks(lives[k]) && forall j :: k < j < |lives| ==> !Recovers(lives[j])
  }

  lemma OwedNext(lives: seq<Life>, life: Life)
    ensures Owed(lives + [life]) <==> Marks(life) || (Owed(lives) && !Recovers(life))
  {
    var all := lives + [life];
    if Marks(life) { assert all[|lives|] == life; }
    if Owed(lives) && !Recovers(life) {
      var k :| 0 <= k < |lives| && Marks(lives[k]) && forall j :: k < j < |lives| ==> !Recovers(lives[j]);
      assert Marks(all[k]);
    }
    if Owed(all) && !Marks(life) {
      var k :| 0 <= k < |all| && Marks(all[k]) && forall j :: k < j < |all| ==> !Recovers(all[j]);
      assert forall j :: k < j < |lives| ==> all[j] == lives[j];
      assert Marks(lives[k]) && !Recovers(all[|lives|]);
    }
  }

  /** Main result: over any sequence of processes, of what they do and of crashes, a process starts
      latched exactly when a sentinel has been written and no process since has recovered whole. */
  lemma {:induction false} StartsLatchedExactly(lives: seq<Life>, stored: int)
    ensures Booted(DiskAfter(Disk(Absent, stored), lives)).latched <==> Owed(lives)
    ensures DiskAfter(Disk(Absent, stored), lives).sentinel != Absent <==> Owed(lives)
  {
    if lives != [] {
      var front, life := lives[..|lives| - 1], lives[|lives| - 1];
      StartsLatchedExactly(front, stored);
      SentinelAfterLife(DiskAfter(Disk(Absent, stored), front), life);
      OwedNext(front, life);
      assert front + [life] == lives;
    }
  }

  /** And it stays latched all its life, unless it is the one that recovers. */
  lemma LatchedUntilRecovery(lives: seq<Life>, stored: int, life: Life, n: nat)
    requires Owed(lives) && !Recovers(life) && n <= |life.ops|
    ensures During(DiskAfter(Disk(Absent, stored), lives), life, n).latched
  {
    StartsLatchedExactly(lives, stored);
    var d := DiskAfter(Disk(Absent, stored), lives);
    LatchStaysShut(Probed(Booted(d), life.probeOk, life.storeOk, life.clearOk), life.ops[..n]);
  }

  // ---- The health epochs' view of a process ----

  predicate SameHealth(h: Latching, p: H.Pair) {
    h.latched == p.latched && h.epoch == p.epoch && h.stored == p.stored
    && h.sentinel == if p.sentinel.Some? then Holds(p.sentinel.value) else Absent
  }

  /** The same operations as the epoch machine's events; a reload comes with a session. */
  function PairAfter(p: H.Pair, ops: seq<Op>, account: Account): H.Pair {
    if ops == [] then p
    else
      var q := PairAfter(p, ops[..|ops| - 1], account);
      match ops[|ops| - 1]
      case Reload => H.Step(q, H.NewSession(account))
      case Trip(written) => H.Step(q, H.Latches(written))
      case ChildMarks => H.Step(q, H.ChildMarks)
      case Damage => q
  }

  /** With a sentinel that stays readable, the runner's latch and epoch are those of the epoch machine. */
  lemma {:induction false} RunnerIsPair(h: Latching, p: H.Pair, ops: seq<Op>, account: Account)
    requires SameHealth(h, p) && Damage !in ops
    ensures SameHealth(DoAll(h, ops), PairAfter(p, ops, account))
  {
    if ops != [] {
      assert ops[|ops| - 1] in ops;
      RunnerIsPair(h, p, ops[..|ops| - 1], account);
    }
  }

  // ---- One message from the server ----

  /** The buffer afterwards, an answer sent on the spot, and whether the child gets the command. */
  datatype Reaction = Reaction(buffer: Buffer, reply: Option<K.Up>, dispatch: bool)

  function React(b: Buffer, latched: bool, account: Account, m: K.Down, now: int): Reaction {
    match m
    case ReportAck(e) => Reaction(MarkSent(b, e, now), None, false)
    case Deliver(id, scope, expires) =>
      if id in b.ledger then Reaction(EnsureAckPending(b, id, account), None, false)
      else if latched then Reaction(b, Some(K.UpReject(id, K.Refusal(Failstop))), false)
      else if scope != account then Reaction(b, Some(K.UpReject(id, K.Refusal(ScopeMismatch))), false)
      else if now >= expires then Reaction(b, Some(K.UpReject(id, K.Refusal(Expired))), false)
      else Reaction(b, None, true)
  }

  /** What the runner does with a message is what the protocol's agent does with it. */
  lemma ReactionIsHandle(w: K.World, m: K.Down)
    ensures var r := React(w.buffer, w.latched, w.account, m, w.now);
      var n := w.(buffer := r.buffer, up := if r.reply.Some? then w.up + [r.reply.value] else w.up);
      K.Handle(w, m) == if r.dispatch && m.Deliver? then n.(exec := Some(m.id), calls := K.Bump(w.calls, m.id)) else n
  {
  }

  // ---- In place ----

  class AgentRunner {
    const buffer: DurableBuffer
    var account: Account
    var latched: bool
    var healthEpoch: int
    var sentinel: Sentinel
    var stored: int

    function Latch(): Latching
      reads this
    {
      Latching(latched, healthEpoch, sentinel, stored)
    }

    constructor (buffer: DurableBuffer, account: Account, sentinel: Sentinel, stored: int)
      ensures this.buffer == buffer && this.account == account
      ensures Latch() == Reloaded(Latching(false, 0, sentinel, stored))
    {
      this.buffer, this.account := buffer, account;
      latched, healthEpoch, this.sentinel, this.stored := false, 0, sentinel, stored;
      new;
      LoadPersistedHealth();
    }

    method LoadPersistedHealth()
      modifies this`latched, this`healthEpoch
      ensures Latch() == Reloaded(old(Latch()))
    {
      match sentinel
      case Unreadable =>
        latched := true;
        healthEpoch := stored;
      case Holds(e) =>
        latched := true;
        healthEpoch := if e >= stored then e else stored;
      case Absent =>
        healthEpoch := stored;
    }

    /** A notice of a generation that has been replaced meanwhile is dropped. */
    method TripLatch(expected: Option<nat>, generation: nat, written: bool) returns (done: bool)
      modifies this`latched, this`healthEpoch, this`sentinel
      ensures done == (expected == None || expected.value == generation)
      ensures Latch() == if done then Tripped(old(Latch()), written) else old(Latch())
    {
      if expected.Some? && expected.value != generation {
        return false;
      }
      latched := true;
      healthEpoch := healthEpoch + 1;
      if written {
        sentinel := Holds(healthEpoch);
      }
      return true;
    }

    method StartupRecoveryProbe(probeOk: bool, storeOk: bool, clearOk: bool)
      modifies this`latched, this`sentinel, this`stored
      ensures Latch() == Probed(old(Latch()), probeOk, storeOk, clearOk)
    {
      if !latched || !probeOk || !storeOk {
        return;
      }
      stored := healthEpoch;
      if !clearOk {
        return;
      }
      sentinel := Absent;
      latched := false;
    }

    /** A queued frame is sent only if its epoch is still current, with the status of the moment. */
    method HealthFrame(epoch: int) returns (status: Option<H.HealthStatus>)
      ensures status.Some? <==> epoch == healthEpoch
      ensures status.Some? ==> (status.value == H.FailstopStatus <==> latched)
    {
      if epoch != healthEpoch {
        return None;
      }
      return Some(if latched then H.FailstopStatus else H.Ok);
    }

    /** One message from the server; `reply` is answered on the spot, `dispatch` goes to the child. */
    method HandleDownlink(m: K.Down, now: int) returns (reply: Option<K.Up>, dispatch: bool)
      modifies buffer
      ensures Reaction(buffer.View(), reply, dispatch) == React(old(buffer.View()), latched, account, m, now)
    {
      reply, dispatch := None, false;
      match m
      case ReportAck(e) => buffer.MarkEventSent(e, now);
      case Deliver(id, scope, expires) =>
        var cached := buffer.LookupCommand(id);
        if cached.Some? {
          buffer.EnsureCmdAckPending(id, account);
        } else if latched {
          reply := Some(K.UpReject(id, K.Refusal(Failstop)));
        } else if scope != account {
          reply := Some(K.UpReject(id, K.Refusal(ScopeMismatch)));
        } else if now >= expires {
          reply := Some(K.UpReject(id, K.Refusal(Expired)));
        } else {
          dispatch := true;
        }
    }

    /** The child's answer, or its silence, is recorded together with the ack that will carry it. */
    method RecordAnswer(id: CmdId, answer: Option<Ack>) returns (ok: bool)
      modifies buffer
      ensures var ack := if answer.Some? then answer.value else Ack(false, Some(Timeout), None);
        (buffer.View(), ok) == RecordExecution(old(buffer.View()), id, ack, account)
    {
      var ack := if answer.Some? then answer.value else Ack(false, Some(Timeout), None);
      ok := buffer.Record(id, ack, account);
    }
  }
}
