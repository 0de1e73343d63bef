/** The parent's handle on the SDK child: one lock, one pipe per generation, requests numbered and
    fenced by generation, and a pipe declared dead at the first doubt. */
module ChildRpc {
  import opened Common

  datatype Op = Op(name: nat)

  const ConnectOp := Op(0)

  /** A reply carries, besides its number, what the child was really answering and as which generation. */
  datatype Request = Request(id: nat, op: Op)
  datatype Reply = Reply(id: nat, op: Op, generation: nat, ok: bool)

  /** The pipe to one child: what it has not read yet and what the parent has not read yet. */
  datatype Pipe = Pipe(generation: nat, requests: seq<Request>, replies: seq<Reply>)

  /** What happens while the parent waits for a reply. */
  datatype Wait = ChildAnswers(ok: bool) | Arrival | TimeUp | Broken

  /** A request that went down a pipe: the generation it was meant for and the one it reached. */
  datatype Delivery = Delivery(id: nat, op: Op, meant: nat, reached: nat)

  function Answer(p: Pipe, ok: bool): Pipe {
    if p.requests == [] then p
    else p.(requests := p.requests[1..], replies := p.replies + [Reply(p.requests[0].id, p.requests[0].op, p.generation, ok)])
  }

  class ChildHandle {
    var generation: nat
    var poisoned: bool
    var seqNo: nat
    var pipe: Option<Pipe>
    var deliveries: seq<Delivery>

    /** Between calls a pipe that is still trusted is empty in both directions. */
    ghost predicate Idle()
      reads this
    {
      && (pipe.Some? ==> pipe.value.generation == generation)
      && (pipe.Some? && !poisoned ==> pipe.value.requests == [] && pipe.value.replies == [])
      && (forall d :: d in deliveries ==> d.meant == d.reached && d.id <= seqNo)
      && (forall i, j :: 0 <= i < j < |deliveries| ==> deliveries[i].id < deliveries[j].id)
    }

    constructor ()
      ensures Idle() && generation == 0 && pipe == None
    {
      generation, poisoned, seqNo, pipe, deliveries := 0, false, 0, None, [];
    }

    /** `dies` says whether the kill is confirmed; without confirmation the handle is kept. */
    method Terminate(expected: Option<nat>, dies: bool) returns (r: Option<bool>)
      modifies this`pipe
      ensures expected.Some? && expected.value != generation ==> r == None && pipe == old(pipe)
      ensures !(expected.Some? && expected.value != generation) ==>
                r == Some(dies || old(pipe) == None) && pipe == if dies then None else old(pipe)
    {
      if expected.Some? && expected.value != generation {
        return None;
      }
      if pipe.Some? && !dies {
        return Some(false);
      }
      pipe := None;
      return Some(true);
    }

    method Poison(dies: bool)
      modifies this`pipe, this`poisoned
      ensures poisoned && pipe == if dies then None else old(pipe)
    {
      poisoned := true;
      var _ := Terminate(None, dies);
    }

    /** One exchange under the lock. `meant` is the generation captured before the lock was taken and
        `doubted` what the unlocked look at the poison flag saw then; `skipped` counts replies thrown
        away for carrying another number. */
    method Rpc(op: Op, meant: nat, doubted: bool, sendBreaks: bool, waits: seq<Wait>, dies: bool)
      returns (r: Option<Reply>, skipped: int)
      requires Idle()
      modifies this
      ensures Idle() && generation == old(generation) && skipped == 0
      ensures r.Some? ==> r.value.op == op && r.value.generation == meant == generation && r.value.id == seqNo == old(seqNo) + 1
      ensures r.Some? ==> !poisoned && !old(poisoned) && pipe == old(pipe)
      ensures old(poisoned) || meant != generation || old(pipe) == None ==>
                r == None && poisoned == old(poisoned) && pipe == old(pipe) && deliveries == old(deliveries)
      ensures r.None? ==> poisoned || deliveries == old(deliveries)
      ensures r.Some? ==> deliveries == old(deliveries) + [Delivery(seqNo, op, meant, generation)]
      ensures seqNo >= old(seqNo) && (deliveries == old(deliveries) || deliveries == old(deliveries) + [Delivery(seqNo, op, meant, generation)])
    {
      skipped := 0;
      if doubted || meant != generation || poisoned || pipe == None {
        return None, 0;
      }
      seqNo := seqNo + 1;
      var id := seqNo;
      if sendBreaks {
        Poison(dies);
        return None, 0;
      }
      pipe := Some(pipe.value.(requests := pipe.value.requests + [Request(id, op)]));
      deliveries := deliveries + [Delivery(seqNo, op, meant, pipe.value.generation)];
      var i := 0;
      while i < |waits|
        invariant 0 <= i <= |waits| && skipped == 0
        invariant !poisoned && generation == old(generation) && seqNo == id == old(seqNo) + 1
        invariant pipe.Some? && pipe.value.generation == generation
        invariant deliveries == old(deliveries) + [Delivery(seqNo, op, meant, generation)]
        invariant (pipe.value.requests == [Request(id, op)] && pipe.value.replies == [])
                  || (pipe.value.requests == [] && |pipe.value.replies| == 1 && pipe.value.replies[0].id == id
                      && pipe.value.replies[0].op == op && pipe.value.replies[0].generation == generation)
      {
        match waits[i] {
          case ChildAnswers(ok) => pipe := Some(Answer(pipe.value, ok));
          case Arrival =>
            if pipe.value.replies != [] {
              var reply := pipe.value.replies[0];
              pipe := Some(pipe.value.(replies := pipe.value.replies[1..]));
              if reply.id == id {
                return Some(reply), skipped;
              }
              skipped := skipped + 1;
            }
          case TimeUp =>
            Poison(dies);
            return None, skipped;
          case Broken =>
            Poison(dies);
            return None, skipped;
        }
        i := i + 1;
      }
      Poison(dies);
      return None, skipped;
    }

    /** A new child: a new generation, a fresh pipe, and a first exchange to connect. */
    method Start(waits: seq<Wait>, sendBreaks: bool, dies: bool) returns (ok: bool)
      requires Idle()
      modifies this
      ensures Idle() && generation == old(generation) + 1
      ensures ok ==> pipe.Some? && !poisoned
      ensures seqNo >= old(seqNo) && exists tail :: deliveries == old(deliveries) + tail
    {
      generation := generation + 1;
      pipe := Some(Pipe(generation, [], []));
      poisoned := false;
      var reply, _ := Rpc(ConnectOp, generation, false, sendBreaks, waits, dies);
      ok := reply.Some? && reply.value.ok;
      if !ok {
        var _ := Terminate(None, dies);
      }
      assert deliveries == old(deliveries) + deliveries[|old(deliveries)|..];
    }
  }

  // ---- Whole lives of a handle ----

  datatype Act =
    | Spawn(waits: seq<Wait>, sendBreaks: bool, dies: bool)
    | Kill(expected: Option<nat>, dies: bool)
    | Call(op: Op, meant: nat, doubted: bool, sendBreaks: bool, waits: seq<Wait>, dies: bool)

  /** A value handed back to the caller of request `id`. */
  datatype Returned = Returned(id: nat, op: Op, meant: nat, reply: Reply)

  /** The reply carries the number of its own request, which went down the pipe of the generation it was
      meant for and is the only one of that number. */
  ghost predicate Answered(x: Returned, deliveries: seq<Delivery>) {
    x.reply.id == x.id && x.reply.op == x.op && x.reply.generation == x.meant && Delivery(x.id, x.op, x.meant, x.meant) in deliveries
  }

  /** Over any sequence of spawns, kills and calls, with any delays, losses and captured generations: a
      returned value answers that very request in that very generation, request numbers only ever grow,
      no request reaches a generation it was not meant for, no reply is ever thrown away by number, and a
      trusted pipe holds nothing stale. */
  method Live(h: ChildHandle, acts: seq<Act>) returns (returned: seq<Returned>, skipped: int)
    requires h.Idle()
    modifies h
    ensures h.Idle() && skipped == 0
    ensures forall x :: x in returned ==> Answered(x, h.deliveries)
    ensures forall i, j :: 0 <= i < j < |returned| ==> returned[i].id < returned[j].id
    ensures forall i, j :: 0 <= i < j < |h.deliveries| ==> h.deliveries[i].id < h.deliveries[j].id
    ensures forall d :: d in h.deliveries ==> d.meant == d.reached
  {
    returned, skipped := [], 0;
    var i := 0;
    while i < |acts|
      invariant 0 <= i <= |acts| && h.Idle() && skipped == 0
      invariant forall x :: x in returned ==> Answered(x, h.deliveries) && x.id <= h.seqNo
      invariant forall i, j :: 0 <= i < j < |returned| ==> returned[i].id < returned[j].id
    {
      match acts[i] {
        case Spawn(waits, sendBreaks, dies) => var _ := h.Start(waits, sendBreaks, dies);
        case Kill(expected, dies) => var _ := h.Terminate(expected, dies);
        case Call(op, meant, doubted, sendBreaks, waits, dies) =>
          var r, k := h.Rpc(op, meant, doubted, sendBreaks, waits, dies);
          skipped := skipped + k;
          if r.Some? {
            returned := returned + [Returned(h.seqNo, op, meant, r.value)];
          }
      }
      i := i + 1;
    }
  }
}
