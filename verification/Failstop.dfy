/** Fail-stop: a child whose callback cannot be stored stops executing, and so does the process. */
module Failstop {
  import opened Common

  // ---- The child's latch and its callback, as the child runs them ----

  class ChildFailstopLatch {
    var tripped: bool
    var faultSeq: nat

    ghost predicate Valid()
      reads this
    {
      faultSeq == if tripped then 1 else 0
    }

    constructor ()
      ensures Valid() && !tripped
    {
      tripped, faultSeq := false, 0;
    }

    /** Only the first trip of a child counts as a fault. */
    method Trip()
      requires Valid()
      modifies this
      ensures Valid() && tripped && faultSeq == 1
    {
      if !tripped {
        tripped := true;
        faultSeq := faultSeq + 1;
      }
    }
  }

  datatype Action = Trips | DegradedWrite(ok: bool) | SentinelWrite(ok: bool) | Notice(ok: bool)

  datatype Written = RowWritten | DegradedOnly | Raised

  /** The callback: the log lists what it did, in order. */
  method OnRaw(latch: ChildFailstopLatch, appendOk: bool, degradedOk: bool, sentinelOk: bool, noticeOk: bool)
    returns (r: Written, log: seq<Action>)
    requires latch.Valid()
    modifies latch
    ensures latch.Valid() && latch.tripped == (old(latch.tripped) || !appendOk)
    ensures r.RowWritten? <==> appendOk
    ensures appendOk ==> log == []
    ensures !appendOk ==> log == [Trips, DegradedWrite(degradedOk), Trips, SentinelWrite(sentinelOk), Notice(noticeOk)]
    ensures r.DegradedOnly? <==> !appendOk && degradedOk
  {
    log := [];
    if appendOk {
      return RowWritten, log;
    }
    latch.Trip();
    log := log + [Trips];
    log := log + [DegradedWrite(degradedOk)];
    latch.Trip();
    log := log + [Trips, SentinelWrite(sentinelOk), Notice(noticeOk)];
    r := if degradedOk then DegradedOnly else Raised;
  }

  // ---- One agent process over all its generations ----

  /** How far the callback that failed has got in the current child. */
  datatype Phase = Fine | Failing | Stopped | Marked | Told

  /** A mutating command past the parent's gate: the generation at the gate, and the one its request
      captured in its thread. */
  datatype Flight = Flight(gate: nat, captured: Option<nat>)

  /** `executed` lists the generation of every mutating native call. */
  datatype Process = Process(
    generation: nat, phase: Phase, tripped: bool, sentinel: bool, notices: seq<nat>, latched: bool,
    flights: map<nat, Flight>, executed: seq<nat>)

  datatype Event =
    | WriteFails
    | TripsLatch
    | WritesSentinel(ok: bool)
    | SendsNotice(ok: bool)
    | ConsumesNotice
    | PingSeen
    | Reload
    | Respawn
    | PassesGate(c: nat)
    | Captures(c: nat)
    | Dispatches(c: nat)

  predicate Enabled(p: Process, e: Event) {
    match e
    case WriteFails => p.phase == Fine
    case TripsLatch => p.phase == Failing
    case WritesSentinel(_) => p.phase == Stopped
    case SendsNotice(_) => p.phase == Marked
    case ConsumesNotice => p.notices != []
    case PingSeen => p.tripped
    case Reload => true
    case Respawn => true
    case PassesGate(c) => !p.latched && c !in p.flights
    case Captures(c) => c in p.flights && p.flights[c].captured == None
    case Dispatches(c) => c in p.flights && p.flights[c].captured.Some?
  }

  function Step(p: Process, e: Event): Process
    requires Enabled(p, e)
  {
    match e
    case WriteFails => p.(phase := Failing)
    case TripsLatch => p.(phase := Stopped, tripped := true)
    case WritesSentinel(ok) => p.(phase := Marked, sentinel := p.sentinel || ok)
    case SendsNotice(ok) => p.(phase := Told, notices := if ok then p.notices + [p.generation] else p.notices)
    case ConsumesNotice =>
      if p.notices[0] == p.generation then p.(notices := p.notices[1..], latched := true, sentinel := true)
      else p.(notices := p.notices[1..])
    case PingSeen => p.(latched := true, sentinel := true)
    case Reload => p.(latched := p.latched || p.sentinel)
    case Respawn => p.(generation := p.generation + 1, phase := Fine, tripped := false, notices := [])
    case PassesGate(c) => p.(flights := p.flights[c := Flight(p.generation, None)])
    case Captures(c) => p.(flights := p.flights[c := p.flights[c].(captured := Some(p.generation))])
    case Dispatches(c) =>
      var landed := p.(flights := p.flights - {c});
      if p.flights[c].captured != Some(p.generation) || p.tripped then landed
      else landed.(executed := p.executed + [p.generation])
  }

  ghost predicate Run(states: seq<Process>, events: seq<Event>) {
    && |states| == |events| + 1
    && forall i :: 0 <= i < |events| ==> Enabled(states[i], events[i]) && states[i + 1] == Step(states[i], events[i])
  }

  /** A request captures its generation before the child it was gated for is replaced. */
  predicate Prompt(p: Process, e: Event) { e.Captures? && e.c in p.flights ==> p.flights[e.c].gate == p.generation }

  ghost predicate Fenced(p: Process) {
    forall c | c in p.flights ::
      p.flights[c].gate <= p.generation
      && (p.flights[c].captured.Some? ==> p.flights[c].captured.value == p.flights[c].gate)
  }

  // ---- Within one generation ----

  /** Once the child's latch has tripped, nothing executes in that generation, however long the
      sentinel, the notice and everything else take. */
  lemma {:induction false} TrippedChildNeverExecutes(states: seq<Process>, events: seq<Event>, m: nat, n: nat)
    requires Run(states, events) && m <= n < |states| && states[m].tripped && states[n].generation == states[m].generation
    ensures states[n].tripped && states[n].executed == states[m].executed
    decreases n - m
  {
    if m < n {
      GenerationGrows(states, events, m, n - 1);
      GenerationGrows(states, events, n - 1, n);
      TrippedChildNeverExecutes(states, events, m, n - 1);
      assert states[n] == Step(states[n - 1], events[n - 1]);
    }
  }

  lemma {:induction false} GenerationGrows(states: seq<Process>, events: seq<Event>, m: nat, n: nat)
    requires Run(states, events) && m <= n < |states|
    ensures states[m].generation <= states[n].generation && (states[m].latched ==> states[n].latched)
    decreases n - m
  {
    if m < n {
      GenerationGrows(states, events, m, n - 1);
      GrowsStep(states[n - 1], events[n - 1]);
    }
  }

  lemma GrowsStep(p: Process, e: Event)
    requires Enabled(p, e)
    ensures var n := Step(p, e);
      p.generation <= n.generation && (p.latched ==> n.latched)
  {
  }

  // ---- Across generations ----

  lemma FencedStep(p: Process, e: Event)
    requires Fenced(p) && Enabled(p, e) && Prompt(p, e)
    ensures Fenced(Step(p, e))
  {
  }

  lemma {:induction false} FencedRun(states: seq<Process>, events: seq<Event>, n: nat)
    requires Run(states, events) && n < |states| && Fenced(states[0])
    requires forall i :: 0 <= i < |events| ==> Prompt(states[i], events[i])
    ensures Fenced(states[n])
  {
    if n > 0 {
      FencedRun(states, events, n - 1);
      FencedStep(states[n - 1], events[n - 1]);
    }
  }

  /** Requests were let past the gate in a generation that is current or over. */
  predicate Behind(p: Process) { forall c :: c in p.flights ==> p.flights[c].gate <= p.generation }

  lemma {:induction false} BehindRun(states: seq<Process>, events: seq<Event>, n: nat)
    requires Run(states, events) && n < |states| && Behind(states[0])
    ensures Behind(states[n])
  {
    if n > 0 {
      BehindRun(states, events, n - 1);
      BehindStep(states[n - 1], events[n - 1]);
    }
  }

  lemma BehindStep(p: Process, e: Event)
    requires Behind(p) && Enabled(p, e)
    ensures Behind(Step(p, e))
  {
  }

  /** Flights of a latched process all belong to the generations up to the one it latched in. */
  predicate Grounded(p: Process, g: nat) {
    p.latched && g <= p.generation && forall c :: c in p.flights ==> p.flights[c].gate <= g
  }

  lemma GroundedStep(p: Process, e: Event, g: nat)
    requires Grounded(p, g) && Enabled(p, e)
    ensures Grounded(Step(p, e), g)
  {
  }

  lemma {:induction false} GroundedRun(states: seq<Process>, events: seq<Event>, m: nat, n: nat)
    requires Run(states, events) && m <= n < |states| && Behind(states[0]) && states[m].latched
    ensures Grounded(states[n], states[m].generation)
    decreases n - m
  {
    BehindRun(states, events, m);
    if m < n {
      GroundedRun(states, events, m, n - 1);
      GroundedStep(states[n - 1], events[n - 1], states[m].generation);
    }
  }

  /** A request let past the gate by generation `g` reaches the healthy child of a later one, whose number
      its thread read too late. */
  predicate Crosses(p: Process, e: Event, g: nat) {
    e.Dispatches? && e.c in p.flights && p.flights[e.c].gate <= g < p.generation
    && p.flights[e.c].captured == Some(p.generation) && !p.tripped
  }

  lemma ExecutesBy(p: Process, e: Event, g: nat)
    requires Grounded(p, g) && Enabled(p, e)
    ensures Step(p, e).executed == p.executed || Step(p, e).executed == p.executed + [p.generation]
    ensures Step(p, e).executed != p.executed && p.generation > g <==> Crosses(p, e, g)
  {
  }

  /** Main result: in every run, once the parent is latched, a later generation executes exactly where a
      request admitted before crosses over, its number read only after the child was replaced. */
  lemma LaterGenerationsExecuteExactly(states: seq<Process>, events: seq<Event>, m: nat, n: nat)
    requires Run(states, events) && m <= n < |events| && Behind(states[0]) && states[m].latched
    ensures states[n + 1].executed == states[n].executed || states[n + 1].executed == states[n].executed + [states[n].generation]
    ensures states[n + 1].executed != states[n].executed && states[n].generation > states[m].generation
       <==> Crosses(states[n], events[n], states[m].generation)
  {
    GroundedRun(states, events, m, n);
    ExecutesBy(states[n], events[n], states[m].generation);
  }

  /** So where every request reads the generation before its child is replaced, whatever runs after state
      `m` still belongs to the generation that was current there. */
  lemma {:induction false} LatchedProcessStops(states: seq<Process>, events: seq<Event>, m: nat, n: nat)
    requires Run(states, events) && m <= n < |states| && Fenced(states[0]) && states[m].latched
    requires forall i :: 0 <= i < |events| ==> Prompt(states[i], events[i])
    ensures |states[n].executed| >= |states[m].executed|
    ensures forall k :: |states[m].executed| <= k < |states[n].executed| ==> states[n].executed[k] == states[m].generation
    decreases n - m
  {
    if m < n {
      LatchedProcessStops(states, events, m, n - 1);
      StopsStep(states, events, m, n - 1);
    }
  }

  lemma StopsStep(states: seq<Process>, events: seq<Event>, m: nat, n: nat)
    requires Run(states, events) && m <= n < |events| && Fenced(states[0]) && states[m].latched
    requires forall i :: 0 <= i < |events| ==> Prompt(states[i], events[i])
    ensures states[n + 1].executed == states[n].executed || states[n + 1].executed == states[n].executed + [states[m].generation]
  {
    LaterGenerationsExecuteExactly(states, events, m, n);
    FencedRun(states, events, n);
    GenerationGrows(states, events, m, n);
  }

  /** And as soon as that generation has been replaced, or its own child has tripped, nothing executes. */
  lemma {:induction false} LatchedProcessIsSilent(states: seq<Process>, events: seq<Event>, m: nat, i: nat, n: nat)
    requires Run(states, events) && m <= i <= n < |states| && Fenced(states[0]) && states[m].latched
    requires forall k :: 0 <= k < |events| ==> Prompt(states[k], events[k])
    requires states[i].tripped || states[i].generation > states[m].generation
    ensures states[n].executed == states[i].executed
    decreases n - i
  {
    if i < n {
      LatchedProcessIsSilent(states, events, m, i, n - 1);
      SilentStep(states, events, m, i, n - 1);
    }
  }

  lemma SilentStep(states: seq<Process>, events: seq<Event>, m: nat, i: nat, n: nat)
    requires Run(states, events) && m <= i <= n < |events| && Fenced(states[0]) && states[m].latched
    requires forall k :: 0 <= k < |events| ==> Prompt(states[k], events[k])
    requires states[i].tripped || states[i].generation > states[m].generation
    ensures states[n + 1].executed == states[n].executed
  {
    LaterGenerationsExecuteExactly(states, events, m, n);
    FencedRun(states, events, n);
    GenerationGrows(states, events, m, i);
    GenerationGrows(states, events, i, n);
    if states[n].generation == states[i].generation && states[i].tripped {
      TrippedChildNeverExecutes(states, events, i, n);
    }
  }

  // ---- What latches the parent ----

  /** Once written the sentinel stays, so any reload after it latches, whatever happened in between. */
  lemma SentinelThenReload(states: seq<Process>, events: seq<Event>, m: nat, n: nat)
    requires Run(states, events) && m <= n < |events| && states[m].sentinel && events[n].Reload?
    ensures states[n].sentinel && states[n + 1].latched
    decreases n - m
  {
    SentinelStays(states, events, m, n);
  }

  lemma {:induction false} SentinelStays(states: seq<Process>, events: seq<Event>, m: nat, n: nat)
    requires Run(states, events) && m <= n < |states| && states[m].sentinel
    ensures states[n].sentinel
    decreases n - m
  {
    if m < n {
      SentinelStays(states, events, m, n - 1);
      assert states[n] == Step(states[n - 1], events[n - 1]);
    }
  }

  // ---- The late capture ----

  function Orphan(): seq<Event> {
    [PassesGate(0), WriteFails, TripsLatch, WritesSentinel(true), Reload, Respawn, Captures(0), Dispatches(0)]
  }

  function OrphanStates(): seq<Process> {
    var p := Process(1, Fine, false, false, [], false, map[], []);
    var gated := p.(flights := map[0 := Flight(1, None)]);
    var marked := gated.(phase := Marked, tripped := true, sentinel := true);
    var next := gated.(generation := 2, sentinel := true, latched := true);
    [p, gated, gated.(phase := Failing), gated.(phase := Stopped, tripped := true), marked, marked.(latched := true), next,
     next.(flights := map[0 := Flight(1, Some(2))]), next.(flights := map[], executed := [2])]
  }

  /** A request whose thread captures its generation only after the respawn executes in a latched process. */
  lemma OrphanCrossesGenerations()
    ensures Run(OrphanStates(), Orphan()) && !Prompt(OrphanStates()[6], Orphan()[6]) && Crosses(OrphanStates()[7], Orphan()[7], 1)
    ensures OrphanStates()[5].latched && OrphanStates()[5].generation == 1 && OrphanStates()[8].executed == [2]
  {
    var s, e := OrphanStates(), Orphan();
    assert s[8].flights == s[7].flights - {0};
    forall i | 0 <= i < |e| ensures Enabled(s[i], e[i]) && s[i + 1] == Step(s[i], e[i]) {
    }
  }
}
