/** The server's view of one agent connection, and what its health epochs guarantee. */
module Health {
  import opened Common

  datatype HealthStatus = Ok | FailstopStatus

  datatype Channel = Channel(
    attached: bool, generation: nat, loggedIn: bool, account: Account, maxEpoch: int, confirmedOk: bool, failstop: bool)

  const Fresh := Channel(false, 0, false, 0, 0, false, false)

  datatype Act =
    | Attach
    | Detach(generation: Option<nat>)
    | LogIn(account: Account, epoch: int)
    | Note(status: HealthStatus, epoch: int)
    | LeaseExpires

  predicate Detaches(c: Channel, a: Act) { a.Detach? && (a.generation == None || a.generation == Some(c.generation)) }

  predicate Accepts(c: Channel, a: Act) { a.Note? && a.epoch >= c.maxEpoch }

  function Do(c: Channel, a: Act): Channel {
    match a
    case Attach => c.(attached := true, generation := c.generation + 1)
    case Detach(_) => if Detaches(c, a) then c.(attached := false, loggedIn := false, confirmedOk := false) else c
    case LogIn(account, epoch) =>
      c.(loggedIn := true, account := account, maxEpoch := epoch, failstop := false, confirmedOk := false)
    case Note(status, epoch) =>
      if epoch < c.maxEpoch then c
      else c.(maxEpoch := epoch, failstop := status == FailstopStatus, confirmedOk := status == Ok)
    case LeaseExpires => c.(confirmedOk := false)
  }

  function DoAll(c: Channel, acts: seq<Act>): Channel {
    if acts == [] then c else Do(DoAll(c, acts[..|acts| - 1]), acts[|acts| - 1])
  }

  predicate AdmissionReady(c: Channel) { c.attached && c.loggedIn && c.confirmedOk && !c.failstop }

  // ---- Admission is a recent ok ----

  function Before(acts: seq<Act>, k: nat): Channel
    requires k <= |acts|
  {
    DoAll(Fresh, acts[..k])
  }

  /** An accepted ok, a login, an effective detach, a lease expiry and an accepted failstop are what
      can change the confirmation. */
  predicate Confirms(acts: seq<Act>, k: nat)
    requires k < |acts|
  {
    Accepts(Before(acts, k), acts[k]) && acts[k].status == Ok
  }

  predicate Revokes(acts: seq<Act>, k: nat)
    requires k < |acts|
  {
    acts[k].LogIn? || acts[k].LeaseExpires? || Detaches(Before(acts, k), acts[k])
    || (Accepts(Before(acts, k), acts[k]) && acts[k].status == FailstopStatus)
  }

  ghost predicate ConfirmedSince(acts: seq<Act>) {
    exists k :: 0 <= k < |acts| && Confirms(acts, k) && forall j :: k < j < |acts| ==> !Revokes(acts, j)
  }

  lemma PrefixOf(acts: seq<Act>, n: nat, k: nat)
    requires k <= n <= |acts|
    ensures Before(acts[..n], k) == Before(acts, k)
  {
    assert acts[..n][..k] == acts[..k];
  }

  /** The confirmation flag is exactly that, and a standing confirmation rules out failstop. */
  lemma {:induction false} ConfirmedIsARecentOk(acts: seq<Act>)
    ensures DoAll(Fresh, acts).confirmedOk <==> ConfirmedSince(acts)
    ensures DoAll(Fresh, acts).confirmedOk ==> !DoAll(Fresh, acts).failstop
  {
    if acts != [] {
      var n := |acts| - 1;
      var before := acts[..n];
      ConfirmedIsARecentOk(before);
      var c := DoAll(Fresh, before);
      assert Before(acts, n) == c;
      forall k | 0 <= k < n ensures Before(before, k) == Before(acts, k) { PrefixOf(acts, n, k); }
      if Confirms(acts, n) {
        assert ConfirmedSince(acts);
      } else if Revokes(acts, n) {
        assert !ConfirmedSince(acts);
      } else {
        KeptConfirmation(acts);
        assert Do(c, acts[n]).confirmedOk == c.confirmedOk;
      }
    }
  }

  lemma KeptConfirmation(acts: seq<Act>)
    requires acts != [] && !Confirms(acts, |acts| - 1) && !Revokes(acts, |acts| - 1)
    ensures ConfirmedSince(acts[..|acts| - 1]) <==> ConfirmedSince(acts)
  {
    var n := |acts| - 1;
    var before := acts[..n];
    forall k | 0 <= k < n
      ensures (Confirms(before, k) <==> Confirms(acts, k)) && (Revokes(before, k) <==> Revokes(acts, k))
    {
      PrefixOf(acts, n, k);
    }
    if ConfirmedSince(before) {
      var k :| 0 <= k < n && Confirms(before, k) && forall j :: k < j < n ==> !Revokes(before, j);
      assert Confirms(acts, k);
    }
    if ConfirmedSince(acts) {
      var k :| 0 <= k < |acts| && Confirms(acts, k) && forall j :: k < j < |acts| ==> !Revokes(acts, j);
      assert Confirms(before, k);
    }
  }

  /** Orders are admitted exactly when the agent is attached, logged in, and an ok has been accepted
      since the last login, effective detach, lease expiry and accepted failstop. */
  lemma AdmissionIsARecentOk(acts: seq<Act>)
    ensures var c := DoAll(Fresh, acts);
      AdmissionReady(c) <==> c.attached && c.loggedIn && ConfirmedSince(acts)
  {
    ConfirmedIsARecentOk(acts);
  }

  // ---- Epochs over one agent process ----

  datatype Frame = Frame(session: nat, status: HealthStatus, epoch: int, late: bool)

  /** One agent process and the server: `base` is the epoch declared at the current login, `late` marks
      frames composed after the latch, `seen` that the server has accepted such a frame. The sentinel
      may hold the child's placeholder epoch, or nothing when writing it failed. */
  datatype Pair = Pair(
    session: nat, epoch: int, latched: bool, sentinel: Option<int>, stored: int, base: int, frames: set<Frame>,
    channel: Channel, seen: bool)

  datatype Event =
    | Latches(written: bool)
    | ChildMarks
    | NewSession(account: Account)
    | Composes
    | Arrives(frame: Frame)
    | LeaseLost
    | Drops

  function Max(a: int, b: int): int { if a >= b then a else b }

  predicate Enabled(p: Pair, e: Event) { e.Arrives? ==> e.frame in p.frames }

  /** Frames may arrive late, repeatedly and in any order; those of a replaced connection are ignored. */
  function Step(p: Pair, e: Event): Pair {
    match e
    case Latches(written) =>
      p.(latched := true, epoch := p.epoch + 1, sentinel := if written then Some(p.epoch + 1) else p.sentinel)
    case ChildMarks => p.(sentinel := Some(-1))
    case NewSession(account) =>
      var epoch := if p.sentinel.Some? then Max(p.sentinel.value, p.stored) else p.stored;
      p.(session := p.session + 1, epoch := epoch, latched := p.latched || p.sentinel.Some?, base := epoch,
         channel := DoAll(p.channel, [Detach(None), Attach, LogIn(account, epoch)]))
    case Composes =>
      p.(frames := p.frames + {Frame(p.session, if p.latched then FailstopStatus else Ok, p.epoch, p.latched)})
    case Arrives(f) =>
      if f.session != p.session then p
      else p.(channel := Do(p.channel, Note(f.status, f.epoch)), seen := p.seen || (f.late && f.epoch >= p.channel.maxEpoch))
    case LeaseLost => p.(channel := Do(p.channel, LeaseExpires))
    case Drops => p.(channel := Do(p.channel, Detach(None)))
  }

  ghost predicate Run(pairs: seq<Pair>, events: seq<Event>) {
    && |pairs| == |events| + 1
    && forall i :: 0 <= i < |events| ==> Enabled(pairs[i], events[i]) && pairs[i + 1] == Step(pairs[i], events[i])
  }

  ghost predicate Inv(p: Pair) {
    && p.channel.maxEpoch >= p.base && (p.latched || p.epoch == p.base) && p.epoch >= p.base
    && (forall f :: f in p.frames ==> f.session <= p.session)
    && (forall f :: f in p.frames && f.session == p.session && f.status == Ok ==> f.epoch == p.base && !f.late)
    && (forall f :: f in p.frames && f.late ==> f.status == FailstopStatus && p.latched)
    && (forall f :: f in p.frames && f.session == p.session && f.late ==> f.epoch > p.base || NoOk(p))
    && (p.seen ==> p.latched && !p.channel.confirmedOk && (NoOk(p) || p.channel.maxEpoch > p.base))
    && (p.latched ==> p.epoch > p.base || NoOk(p))
  }

  ghost predicate NoOk(p: Pair) { forall f :: f in p.frames && f.session == p.session ==> f.status != Ok }

  lemma StepKeeps(p: Pair, e: Event)
    requires Inv(p) && Enabled(p, e)
    ensures Inv(Step(p, e))
  {
  }

  lemma {:induction false} InvOverRun(pairs: seq<Pair>, events: seq<Event>, n: nat)
    requires Run(pairs, events) && Inv(pairs[0]) && n < |pairs|
    ensures Inv(pairs[n])
  {
    if n > 0 {
      InvOverRun(pairs, events, n - 1);
      StepKeeps(pairs[n - 1], events[n - 1]);
    }
  }

  /** Main result: once the server has accepted a frame composed after the latch, it admits nothing for
      the rest of that agent process, whatever old frames still arrive, however often the agent logs in
      again, and even when the sentinel could not be written or only holds the child's placeholder. */
  lemma {:induction false} LatchIsFinalForAdmission(pairs: seq<Pair>, events: seq<Event>, m: nat, n: nat)
    requires Run(pairs, events) && Inv(pairs[0]) && m <= n < |pairs| && pairs[m].seen
    ensures pairs[n].seen && !AdmissionReady(pairs[n].channel)
    decreases n - m
  {
    if m < n {
      LatchIsFinalForAdmission(pairs, events, m, n - 1);
      assert pairs[n] == Step(pairs[n - 1], events[n - 1]);
    }
    InvOverRun(pairs, events, n);
  }

  /** A process starts with its declared epoch and no frames, latched or not. */
  lemma StartIsOk(p: Pair)
    requires p.frames == {} && !p.seen && p.epoch == p.base == p.channel.maxEpoch
    ensures Inv(p)
  {
  }

  // ---- In place ----

  class AgentChannel {
    var attached: bool
    var generation: nat
    var loggedIn: bool
    var account: Account
    var maxEpoch: int
    var confirmedOk: bool
    var failstop: bool

    function View(): Channel
      reads this
    {
      Channel(attached, generation, loggedIn, account, maxEpoch, confirmedOk, failstop)
    }

    constructor ()
      ensures View() == Fresh
    {
      attached, generation, loggedIn, account, maxEpoch, confirmedOk, failstop := false, 0, false, 0, 0, false, false;
    }

    method AttachSocket() returns (g: nat)
      modifies this
      ensures View() == Do(old(View()), Attach) && g == generation
    {
      generation := generation + 1;
      attached := true;
      g := generation;
    }

    method DetachSocket(g: Option<nat>)
      modifies this
      ensures View() == Do(old(View()), Detach(g))
    {
      if g.Some? && g.value != generation {
        return;
      }
      attached, loggedIn, confirmedOk := false, false, false;
    }

    method MarkLoggedIn(a: Account, epoch: int)
      modifies this
      ensures View() == Do(old(View()), LogIn(a, epoch))
    {
      loggedIn, account, maxEpoch, failstop, confirmedOk := true, a, epoch, false, false;
    }

    method NoteHealth(status: HealthStatus, epoch: int) returns (accepted: bool)
      modifies this
      ensures View() == Do(old(View()), Note(status, epoch))
      ensures accepted == Accepts(old(View()), Note(status, epoch))
    {
      if epoch < maxEpoch {
        return false;
      }
      maxEpoch := epoch;
      failstop := status == FailstopStatus;
      confirmedOk := status == Ok;
      accepted := true;
    }

    method MarkLeaseExpired()
      modifies this
      ensures View() == Do(old(View()), LeaseExpires)
    {
      confirmedOk := false;
    }
  }
}
