/** The agent's durable buffer: the outbox of events awaiting delivery and the ledger of commands
    already executed, as values; `DurableBuffer` performs the same statements in place. */
module Buffers {
  import opened Common
  import opened Ledger

  /** An outbox event: a broker report, or the answer to one command. */
  datatype Body = Report(payload: nat) | CmdAck(id: CmdId, ack: Ack)

  datatype Row = Row(body: Body, account: Account, sentAt: Option<int>)

  /** Rows by event id; `next` is the id the next row will get and is never reused. */
  datatype Buffer = Buffer(rows: map<nat, Row>, next: nat, ledger: map<CmdId, Ack>)

  const Empty := Buffer(map[], 1, map[])

  predicate Unsent(b: Buffer, e: nat) { e in b.rows && b.rows[e].sentAt == None }

  predicate IsAckOf(r: Row, id: CmdId) { r.body.CmdAck? && r.body.id == id }

  predicate UnsentAckOf(b: Buffer, id: CmdId, e: nat) { Unsent(b, e) && IsAckOf(b.rows[e], id) }

  predicate AckPending(b: Buffer, id: CmdId) { exists e :: e in b.rows && UnsentAckOf(b, id, e) }

  // ---- Statements ----

  function Append(b: Buffer, body: Body, account: Account): Buffer {
    b.(rows := b.rows[b.next := Row(body, account, None)], next := b.next + 1)
  }

  function MarkSent(b: Buffer, e: nat, now: int): Buffer {
    if e in b.rows then b.(rows := b.rows[e := b.rows[e].(sentAt := Some(now))]) else b
  }

  function AckIfAbsent(b: Buffer, id: CmdId, ack: Ack, account: Account): Buffer {
    if AckPending(b, id) then b else Append(b, CmdAck(id, ack), account)
  }

  /** Ledger row and ack in one transaction; a second record of the same command is refused whole. */
  function RecordExecution(b: Buffer, id: CmdId, ack: Ack, account: Account): (Buffer, bool) {
    if id in b.ledger then (b, false)
    else (AckIfAbsent(b.(ledger := b.ledger[id := ack]), id, ack, account), true)
  }

  /** A redelivered command: the stored answer is queued again unless it is still waiting. */
  function EnsureAckPending(b: Buffer, id: CmdId, account: Account): Buffer
    requires id in b.ledger
  {
    AckIfAbsent(b, id, b.ledger[id], account)
  }

  predicate Prunable(r: Row, cutoff: int) { r.sentAt.Some? && r.sentAt.value < cutoff }

  function PruneSent(b: Buffer, cutoff: int): Buffer {
    b.(rows := map e | e in b.rows && !Prunable(b.rows[e], cutoff) :: b.rows[e])
  }

  /** The unsent events with the lowest ids, in order. */
  function QueuedFrom(b: Buffer, from: nat, limit: nat): (r: seq<nat>)
    ensures |r| <= limit
    ensures forall j :: 0 <= j < |r| ==> from <= r[j] < b.next && Unsent(b, r[j])
    ensures forall i, j :: 0 <= i < j < |r| ==> r[i] < r[j]
    ensures forall e | from <= e < b.next && Unsent(b, e) :: e in r || (|r| == limit && forall j :: 0 <= j < |r| ==> r[j] < e)
    decreases b.next - from
  {
    if from >= b.next || limit == 0 then []
    else if Unsent(b, from) then [from] + QueuedFrom(b, from + 1, limit - 1)
    else QueuedFrom(b, from + 1, limit)
  }

  // ---- Opening a buffer file ----

  /** What is on disk: nothing, a table of the old layout, or a current one. */
  datatype File = NoFile | OldFile(rows: seq<bool>) | CurrentFile(buffer: Buffer)

  datatype Opened = MustUpgradeFirst | Ready(buffer: Buffer)

  /** Rows of the old layout only say whether they were sent. */
  function OpenFile(f: File, cutoff: int): Opened {
    match f
    case NoFile => Ready(Empty)
    case OldFile(rows) => if false in rows then MustUpgradeFirst else Ready(Empty)
    case CurrentFile(b) => Ready(PruneSent(b, cutoff))
  }

  /** Opening refuses exactly the old files with something still to send, and never drops an unsent row. */
  lemma OpeningLosesNothing(f: File, cutoff: int)
    ensures OpenFile(f, cutoff).MustUpgradeFirst? <==> f.OldFile? && exists j :: 0 <= j < |f.rows| && !f.rows[j]
    ensures f.CurrentFile? ==>
              && OpenFile(f, cutoff).buffer.ledger == f.buffer.ledger && OpenFile(f, cutoff).buffer.next == f.buffer.next
              && forall e :: Unsent(f.buffer, e) <==> Unsent(OpenFile(f, cutoff).buffer, e)
    ensures f.CurrentFile? ==>
              forall e :: e in OpenFile(f, cutoff).buffer.rows ==> e in f.buffer.rows && OpenFile(f, cutoff).buffer.rows[e] == f.buffer.rows[e]
  {
  }

  // ---- Invariant ----

  /** Ids are never reused, every queued answer is the stored one, and no command has two waiting. */
  ghost predicate BufferOk(b: Buffer) {
    && b.next >= 1 && 0 !in b.rows
    && (forall e :: e in b.rows ==> e < b.next)
    && (forall e :: e in b.rows && b.rows[e].body.CmdAck? ==>
          b.rows[e].body.id in b.ledger && b.ledger[b.rows[e].body.id] == b.rows[e].body.ack)
    && (forall e, f | e in b.rows && f in b.rows && e != f && b.rows[e].body.CmdAck? && b.rows[f].body.CmdAck? ::
          b.rows[e].sentAt == None && b.rows[f].sentAt == None ==> b.rows[e].body.id != b.rows[f].body.id)
  }

  lemma AppendReportOk(b: Buffer, payload: nat, account: Account)
    requires BufferOk(b)
    ensures BufferOk(Append(b, Report(payload), account))
  {
  }

  lemma MarkSentOk(b: Buffer, e: nat, now: int)
    requires BufferOk(b)
    ensures BufferOk(MarkSent(b, e, now))
  {
  }

  lemma AckIfAbsentOk(b: Buffer, id: CmdId, account: Account)
    requires BufferOk(b) && id in b.ledger
    ensures BufferOk(AckIfAbsent(b, id, b.ledger[id], account))
    ensures AckPending(AckIfAbsent(b, id, b.ledger[id], account), id)
  {
    if !AckPending(b, id) {
      forall e | e in b.rows && b.rows[e].body.CmdAck? && b.rows[e].sentAt == None ensures b.rows[e].body.id != id {
        assert !UnsentAckOf(b, id, e);
      }
      var n := Append(b, CmdAck(id, b.ledger[id]), account);
      assert UnsentAckOf(n, id, b.next);
    }
  }

  lemma RecordOk(b: Buffer, id: CmdId, ack: Ack, account: Account)
    requires BufferOk(b)
    ensures BufferOk(RecordExecution(b, id, ack, account).0)
    ensures RecordExecution(b, id, ack, account).1 ==> AckPending(RecordExecution(b, id, ack, account).0, id)
  {
    if id !in b.ledger {
      var mid := b.(ledger := b.ledger[id := ack]);
      assert BufferOk(mid);
      AckIfAbsentOk(mid, id, account);
    }
  }

  lemma PruneOk(b: Buffer, cutoff: int)
    requires BufferOk(b)
    ensures BufferOk(PruneSent(b, cutoff))
  {
  }

  // ---- Whole histories ----

  datatype Op =
    | AddReport(payload: nat)
    | Execute(id: CmdId, ack: Ack)
    | Redeliver(id: CmdId)
    | Acknowledge(e: nat, now: int)
    | Reopen(cutoff: int)

  function Perform(b: Buffer, op: Op, account: Account): Buffer {
    match op
    case AddReport(payload) => Append(b, Report(payload), account)
    case Execute(id, ack) => RecordExecution(b, id, ack, account).0
    case Redeliver(id) => if id in b.ledger then EnsureAckPending(b, id, account) else b
    case Acknowledge(e, now) => MarkSent(b, e, now)
    case Reopen(cutoff) => PruneSent(b, cutoff)
  }

  function PerformAll(b: Buffer, ops: seq<Op>, account: Account): Buffer {
    if ops == [] then b else Perform(PerformAll(b, ops[..|ops| - 1], account), ops[|ops| - 1], account)
  }

  lemma {:induction false} PerformAllOk(ops: seq<Op>, account: Account)
    ensures BufferOk(PerformAll(Empty, ops, account))
  {
    if ops != [] {
      var b := PerformAll(Empty, ops[..|ops| - 1], account);
      PerformAllOk(ops[..|ops| - 1], account);
      match ops[|ops| - 1]
      case AddReport(payload) => AppendReportOk(b, payload, account);
      case Execute(id, ack) => RecordOk(b, id, ack, account);
      case Redeliver(id) => if id in b.ledger { AckIfAbsentOk(b, id, account); }
      case Acknowledge(e, now) => MarkSentOk(b, e, now);
      case Reopen(cutoff) => PruneOk(b, cutoff);
    }
  }

  /** After any history of executions, redeliveries, acknowledgements and reopenings, a command has at
      most one answer waiting, it is the stored one, and the stored one is the first recorded. */
  lemma {:induction false} OneStoredAnswer(ops: seq<Op>, account: Account, n: nat, id: CmdId)
    requires n <= |ops| && id in PerformAll(Empty, ops[..n], account).ledger
    ensures var b := PerformAll(Empty, ops, account);
      && id in b.ledger && b.ledger[id] == PerformAll(Empty, ops[..n], account).ledger[id]
      && (forall e, f :: UnsentAckOf(b, id, e) && UnsentAckOf(b, id, f) ==> e == f)
      && (forall e :: UnsentAckOf(b, id, e) ==> b.rows[e].body.ack == b.ledger[id])
    decreases |ops|
  {
    PerformAllOk(ops, account);
    if n == |ops| {
      assert ops[..n] == ops;
    } else {
      var before := ops[..|ops| - 1];
      assert before[..n] == ops[..n];
      OneStoredAnswer(before, account, n, id);
    }
  }

  /** A redelivery right after any history leaves exactly one answer waiting. */
  lemma RedeliveryQueuesTheAnswer(ops: seq<Op>, account: Account, id: CmdId)
    requires id in PerformAll(Empty, ops, account).ledger
    ensures var b := Perform(PerformAll(Empty, ops, account), Redeliver(id), account);
      AckPending(b, id) && forall e, f :: UnsentAckOf(b, id, e) && UnsentAckOf(b, id, f) ==> e == f
  {
    PerformAllOk(ops, account);
    AckIfAbsentOk(PerformAll(Empty, ops, account), id, account);
  }

  // ---- In place ----

  class DurableBuffer {
    var rows: map<nat, Row>
    var next: nat
    var ledger: map<CmdId, Ack>

    function View(): Buffer
      reads this
    {
      Buffer(rows, next, ledger)
    }

    constructor ()
      ensures View() == Empty
    {
      rows, next, ledger := map[], 1, map[];
    }

    method AppendEvent(body: Body, account: Account) returns (e: nat)
      modifies this
      ensures View() == Append(old(View()), body, account) && e == old(next)
    {
      e := next;
      rows := rows[e := Row(body, account, None)];
      next := next + 1;
    }

    method MarkEventSent(e: nat, now: int)
      modifies this`rows
      ensures View() == MarkSent(old(View()), e, now)
    {
      if e in rows {
        rows := rows[e := rows[e].(sentAt := Some(now))];
      }
    }

    method LookupCommand(id: CmdId) returns (r: Option<Ack>)
      ensures r == if id in ledger then Some(ledger[id]) else None
    {
      if id in ledger {
        return Some(ledger[id]);
      }
      return None;
    }

    /** Check, then insert: returns the waiting row's id. */
    method AppendAckIfAbsent(id: CmdId, ack: Ack, account: Account) returns (e: nat)
      modifies this
      ensures View() == AckIfAbsent(old(View()), id, ack, account)
      ensures UnsentAckOf(View(), id, e)
    {
      if AckPending(View(), id) {
        e :| e in rows && UnsentAckOf(View(), id, e);
      } else {
        e := AppendEvent(CmdAck(id, ack), account);
      }
    }

    method Record(id: CmdId, ack: Ack, account: Account) returns (ok: bool)
      modifies this
      ensures (View(), ok) == RecordExecution(old(View()), id, ack, account)
    {
      ok := id !in ledger;
      if ok {
        ledger := ledger[id := ack];
        var _ := AppendAckIfAbsent(id, ack, account);
      }
    }

    method EnsureCmdAckPending(id: CmdId, account: Account)
      requires id in ledger
      modifies this
      ensures View() == EnsureAckPending(old(View()), id, account)
    {
      var _ := AppendAckIfAbsent(id, ledger[id], account);
    }

    method Prune(cutoff: int)
      modifies this`rows
      ensures View() == PruneSent(old(View()), cutoff)
    {
      rows := map e | e in rows && !Prunable(rows[e], cutoff) :: rows[e];
    }
  }
}
