/** The live one-minute builder against the batch aggregation of the same ticks. */
module CandleBuilders {
  import opened Common
  import opened Bucketing
  import opened Candles
  import A = Aggregation

  /** A quote: its cumulative volume and the contract that count belongs to, whether it is a new trade,
      and whether its date is older than the day it arrived on. */
  datatype Snapshot = Snapshot(ts: int, price: real, cumulative: int, contract: nat, isTrade: bool, oldDate: bool)

  datatype Memory = Memory(cur: Option<A.Candle>, prev: Option<int>, contract: Option<nat>)

  const Blank := Memory(None, None, None)

  /** Volume since the last quote: nothing across a break or a change of contract, the whole count
      after a restart, the difference otherwise. */
  function VolumeDelta(m: Memory, s: Snapshot): int {
    if m.prev.None? || m.contract != Some(s.contract) then 0
    else if s.cumulative >= m.prev.value then s.cumulative - m.prev.value
    else s.cumulative
  }

  predicate StaleDay(s: Snapshot) { SessionOf(s.ts).Some? && SessionOf(s.ts).value.kind == DaySession && s.oldDate }

  /** The quote as a row of its own. */
  function Tick(m: Memory, s: Snapshot): A.Candle { A.Candle(s.ts, s.price, s.price, s.price, s.price, VolumeDelta(m, s)) }

  function OnSnapshot(m: Memory, s: Snapshot, cal: Calendar): (Memory, seq<A.Candle>) {
    if !Trades(s.ts, cal) || StaleDay(s) then (m.(cur := None, prev := None), [])
    else if !s.isTrade then (m, [])
    else
      var bucket := BucketStart(s.ts, 1).value;
      var tick := Tick(m, s);
      var next := m.(prev := Some(s.cumulative), contract := Some(s.contract));
      if m.cur.Some? && m.cur.value.ts == bucket then
        var bar := A.Merge(m.cur.value, tick);
        (next.(cur := Some(bar)), [bar])
      else
        var bar := tick.(ts := bucket);
        (next.(cur := Some(bar)), (if m.cur.Some? then [m.cur.value] else []) + [bar])
  }

  // ---- In place ----

  class CandleBuilder {
    const cal: Calendar
    var cur: Option<A.Candle>
    var prev: Option<int>
    var contract: Option<nat>

    function View(): Memory
      reads this
    {
      Memory(cur, prev, contract)
    }

    constructor (cal: Calendar)
      ensures View() == Blank && this.cal == cal
    {
      this.cal := cal;
      cur, prev, contract := None, None, None;
    }

    method TakeVolume(s: Snapshot) returns (dv: int)
      modifies this`prev, this`contract
      ensures dv == VolumeDelta(old(View()), s) && prev == Some(s.cumulative) && contract == Some(s.contract)
    {
      var before, owner := prev, contract;
      prev, contract := Some(s.cumulative), Some(s.contract);
      if before.None? || owner != Some(s.contract) {
        return 0;
      }
      if s.cumulative >= before.value {
        return s.cumulative - before.value;
      }
      return s.cumulative;
    }

    method Feed(s: Snapshot) returns (rows: seq<A.Candle>)
      modifies this
      ensures (View(), rows) == OnSnapshot(old(View()), s, cal)
    {
      if !Trades(s.ts, cal) || StaleDay(s) {
        prev, cur := None, None;
        return [];
      }
      if !s.isTrade {
        return [];
      }
      var bucket := BucketStart(s.ts, 1).value;
      var dv := TakeVolume(s);
      if cur.Some? && cur.value.ts == bucket {
        var bar := cur.value.(high := A.Max(cur.value.high, s.price), low := A.Min(cur.value.low, s.price), close := s.price,
                              volume := cur.value.volume + dv);
        cur := Some(bar);
        return [bar];
      }
      var bar := A.Candle(bucket, s.price, s.price, s.price, s.price, dv);
      rows := (if cur.Some? then [cur.value] else []) + [bar];
      cur := Some(bar);
    }
  }

  // ---- Whole streams ----

  function Upsert(store: map<int, A.Candle>, rows: seq<A.Candle>): map<int, A.Candle>
    decreases |rows|
  {
    if rows == [] then store else Upsert(store[rows[0].ts := rows[0]], rows[1..])
  }

  datatype Stream = Stream(memory: Memory, store: map<int, A.Candle>, ticks: seq<A.Candle>)

  /** Memory, stored bars, and the fresh ticks taken, after some quotes. */
  function Run(snaps: seq<Snapshot>, cal: Calendar): Stream {
    if snaps == [] then Stream(Blank, map[], [])
    else
      var r := Run(snaps[..|snaps| - 1], cal);
      var s := snaps[|snaps| - 1];
      var (m, rows) := OnSnapshot(r.memory, s, cal);
      Stream(m, Upsert(r.store, rows), if Trades(s.ts, cal) && !StaleDay(s) && s.isTrade then r.ticks + [Tick(r.memory, s)] else r.ticks)
  }

  predicate Forward(snaps: seq<Snapshot>) { forall i, j :: 0 <= i < j < |snaps| ==> snaps[i].ts <= snaps[j].ts }

  predicate NoStaleDay(snaps: seq<Snapshot>) { forall i :: 0 <= i < |snaps| ==> !StaleDay(snaps[i]) }

  /** The store holds exactly these bars. */
  predicate Holds(store: map<int, A.Candle>, bars: seq<A.Candle>) {
    && (forall i :: 0 <= i < |bars| ==> bars[i].ts in store && store[bars[i].ts] == bars[i])
    && (forall ts :: ts in store ==> A.HasBar(bars, ts))
  }

  /** Between two trading moments of one bucket every moment trades. */
  lemma NoGapInBucket(a: int, t: int, b: int, cal: Calendar)
    requires a <= t <= b && Trades(a, cal) && Trades(b, cal) && BucketStart(a, 1) == BucketStart(b, 1)
    ensures Trades(t, cal)
  {
    StartInSession(a, 1);
    StartInSession(b, 1);
    var s := SessionOf(a).value;
    SessionSpan(a);
    SessionSpan(b);
    InSession(a, s, t);
    if s.kind == DaySession { DayMinutes(b, t, s); }
  }

  /** Where the builder stands: its bars are the minute bars of the ticks, and without an open bar the
      last bar's bucket is over for good. */
  ghost predicate Inv(r: Stream, last: int, cal: Calendar) {
    var bars := Bars(r.ticks, 1, cal);
    && History(r.ticks, cal) && (forall i :: 0 <= i < |r.ticks| ==> r.ticks[i].ts <= last)
    && Holds(r.store, bars)
    && (r.memory.cur.Some? ==> bars != [] && A.Last(bars) == r.memory.cur.value)
    && (r.memory.cur.None? && r.ticks != [] ==>
          forall b :: b >= last && Trades(b, cal) ==> BucketStart(b, 1) != BucketStart(A.Last(r.ticks).ts, 1))
  }

  lemma TakenTick(r: Stream, s: Snapshot, last: int, cal: Calendar)
    requires Inv(r, last, cal) && last <= s.ts && Trades(s.ts, cal)
    ensures var tick := Tick(r.memory, s);
      && History(r.ticks + [tick], cal)
      && Bars(r.ticks + [tick], 1, cal) == A.AddRow(Bars(r.ticks, 1, cal), tick, Buckets(1), GateOf(cal))
    ensures r.ticks != [] ==> Bars(r.ticks, 1, cal) != [] && A.Last(Bars(r.ticks, 1, cal)).ts == BucketStart(A.Last(r.ticks).ts, 1).value
    ensures r.ticks == [] ==> Bars(r.ticks, 1, cal) == []
    ensures A.Ascending(Bars(r.ticks, 1, cal))
  {
    var tick := Tick(r.memory, s);
    A.AggregateAppend(r.ticks, tick, Buckets(1), GateOf(cal));
    HistoryIsRegular(r.ticks, 1, cal);
    A.BarsInOrder(r.ticks, Buckets(1), GateOf(cal));
  }

  lemma UpsertTwo(store: map<int, A.Candle>, a: A.Candle, b: A.Candle)
    ensures Upsert(store, [b]) == store[b.ts := b]
    ensures Upsert(store, [a] + [b]) == store[a.ts := a][b.ts := b]
  {
    assert [b][1..] == [];
    assert Upsert(store[a.ts := a], [b]) == Upsert(store[a.ts := a][b.ts := b], []);
    assert ([a] + [b])[0] == a && ([a] + [b])[1..] == [b];
  }

  lemma HoldsMerged(store: map<int, A.Candle>, bars: seq<A.Candle>, bar: A.Candle)
    requires Holds(store, bars) && bars != [] && A.Ascending(bars) && bar.ts == A.Last(bars).ts
    ensures Holds(store[bar.ts := bar], bars[|bars| - 1 := bar])
  {
    var n := bars[|bars| - 1 := bar];
    forall ts | ts in store[bar.ts := bar] ensures A.HasBar(n, ts) {
      if ts == bar.ts { assert n[|n| - 1].ts == ts; }
      else { var i :| 0 <= i < |bars| && bars[i].ts == ts; assert n[i].ts == ts; }
    }
  }

  lemma HoldsAdded(store: map<int, A.Candle>, bars: seq<A.Candle>, bar: A.Candle)
    requires Holds(store, bars) && forall i :: 0 <= i < |bars| ==> bars[i].ts != bar.ts
    ensures Holds(store[bar.ts := bar], bars + [bar])
  {
    var n := bars + [bar];
    forall ts | ts in store[bar.ts := bar] ensures A.HasBar(n, ts) {
      if ts == bar.ts { assert n[|bars|].ts == ts; }
      else { var i :| 0 <= i < |bars| && bars[i].ts == ts; assert n[i].ts == ts; }
    }
  }

  lemma HoldsAgain(store: map<int, A.Candle>, bars: seq<A.Candle>)
    requires Holds(store, bars) && bars != []
    ensures store[A.Last(bars).ts := A.Last(bars)] == store
  {
  }

  /** Taking a fresh tick: it joins the open bar or starts the next. */
  lemma TickKeeps(r: Stream, s: Snapshot, last: int, cal: Calendar)
    requires Inv(r, last, cal) && last <= s.ts && Trades(s.ts, cal) && !StaleDay(s) && s.isTrade
    ensures var (m, rows) := OnSnapshot(r.memory, s, cal);
      Inv(Stream(m, Upsert(r.store, rows), r.ticks + [Tick(r.memory, s)]), s.ts, cal)
  {
    var bars := Bars(r.ticks, 1, cal);
    var tick := Tick(r.memory, s);
    var k := BucketStart(s.ts, 1).value;
    TakenTick(r, s, last, cal);
    if r.memory.cur.Some? && r.memory.cur.value.ts == k {
      var bar := A.Merge(r.memory.cur.value, tick);
      UpsertTwo(r.store, bar, bar);
      HoldsMerged(r.store, bars, bar);
    } else {
      var bar := tick.(ts := k);
      NewBucket(r, s, last, cal);
      if r.memory.cur.Some? {
        UpsertTwo(r.store, r.memory.cur.value, bar);
        HoldsAgain(r.store, bars);
      } else {
        assert [] + [bar] == [bar];
        UpsertTwo(r.store, bar, bar);
      }
      HoldsAdded(r.store, bars, bar);
    }
  }

  /** A tick that does not join the open bar is in a bucket no bar has. */
  lemma NewBucket(r: Stream, s: Snapshot, last: int, cal: Calendar)
    requires Inv(r, last, cal) && last <= s.ts && Trades(s.ts, cal)
    requires !(r.memory.cur.Some? && r.memory.cur.value.ts == BucketStart(s.ts, 1).value)
    ensures var bars := Bars(r.ticks, 1, cal); var k := BucketStart(s.ts, 1).value;
      (bars == [] || A.Last(bars).ts != k) && forall i :: 0 <= i < |bars| ==> bars[i].ts != k
  {
    TakenTick(r, s, last, cal);
    if r.ticks != [] { BucketsAreMonotone(A.Last(r.ticks).ts, s.ts, 1); }
  }

  /** Closing: the open bar is put away and its bucket cannot come back. */
  lemma CloseKeeps(r: Stream, t: int, last: int, cal: Calendar)
    requires Inv(r, last, cal) && last <= t && !Trades(t, cal)
    ensures Inv(r.(memory := r.memory.(cur := None, prev := None)), t, cal)
  {
    if r.ticks != [] {
      var a := A.Last(r.ticks).ts;
      forall b | b >= t && Trades(b, cal) ensures BucketStart(b, 1) != BucketStart(a, 1) {
        if BucketStart(b, 1) == BucketStart(a, 1) { NoGapInBucket(a, t, b, cal); }
      }
    }
  }

  lemma {:induction false} BuilderKeepsBars(snaps: seq<Snapshot>, cal: Calendar)
    requires Forward(snaps) && NoStaleDay(snaps) && snaps != []
    ensures Inv(Run(snaps, cal), snaps[|snaps| - 1].ts, cal)
  {
    var before, s := snaps[..|snaps| - 1], snaps[|snaps| - 1];
    var r := Run(before, cal);
    var last := if before == [] then s.ts else before[|before| - 1].ts;
    if before != [] { BuilderKeepsBars(before, cal); }
    assert Inv(r, last, cal);
    if !Trades(s.ts, cal) {
      CloseKeeps(r, s.ts, last, cal);
    } else if s.isTrade {
      TickKeeps(r, s, last, cal);
    }
  }

  /** Main result: for quotes in order and no stale-day reset, the stored bars are the minute bars of
      the fresh ticks, and aggregating them further is aggregating the ticks themselves. */
  lemma LiveMatchesBatch(snaps: seq<Snapshot>, tf: int, cal: Calendar)
    requires Forward(snaps) && NoStaleDay(snaps) && tf > 0
    ensures var r := Run(snaps, cal);
      && History(r.ticks, cal) && Holds(r.store, Bars(r.ticks, 1, cal))
      && Bars(Bars(r.ticks, 1, cal), tf, cal) == Bars(r.ticks, tf, cal)
  {
    if snaps != [] { BuilderKeepsBars(snaps, cal); }
    MinuteBarsSuffice(Run(snaps, cal).ticks, tf, cal);
  }

  // ---- Volume ----

  /** Trading quotes, of which the fresh ones are of one contract and their count does not fall. */
  predicate Rising(stretch: seq<Snapshot>, cal: Calendar) {
    && (forall i :: 0 <= i < |stretch| ==> Trades(stretch[i].ts, cal) && !StaleDay(stretch[i]))
    && (forall i, j :: 0 <= i < j < |stretch| && stretch[i].isTrade && stretch[j].isTrade ==>
          stretch[i].contract == stretch[j].contract && stretch[i].cumulative <= stretch[j].cumulative)
  }

  /** The newest fresh quote. */
  function LastFresh(stretch: seq<Snapshot>): (s: Snapshot)
    requires stretch != [] && stretch[0].isTrade
    ensures s in stretch && s.isTrade
  {
    var s := stretch[|stretch| - 1];
    if s.isTrade then s else LastFresh(stretch[..|stretch| - 1])
  }

  function Volume(ticks: seq<A.Candle>): int { A.Volume(ticks) }

  /** Along a rising stretch the volumes after its first tick sum to the last fresh count less the first,
      whatever quotes without a new trade stand in between. */
  lemma {:induction false} VolumeTelescopes(before: seq<Snapshot>, stretch: seq<Snapshot>, cal: Calendar)
    requires Rising(stretch, cal) && stretch != [] && stretch[0].isTrade
    ensures var r0, r := Run(before + stretch[..1], cal), Run(before + stretch, cal);
      && Volume(r.ticks) - Volume(r0.ticks) == LastFresh(stretch).cumulative - stretch[0].cumulative
      && r.memory.prev == Some(LastFresh(stretch).cumulative) && r.memory.contract == Some(stretch[0].contract)
  {
    var front, s := stretch[..|stretch| - 1], stretch[|stretch| - 1];
    assert before + stretch == (before + front) + [s];
    if |stretch| == 1 {
      assert stretch[..1] == stretch;
      FreshTick(before + front, s, cal);
    } else {
      assert front[..1] == stretch[..1];
      VolumeTelescopes(before, front, cal);
      if s.isTrade { FreshTick(before + front, s, cal); } else { IdleQuote(before + front, s, cal); }
    }
  }

  /** A quote without a new trade leaves everything as it is. */
  lemma IdleQuote(snaps: seq<Snapshot>, s: Snapshot, cal: Calendar)
    requires Trades(s.ts, cal) && !StaleDay(s) && !s.isTrade
    ensures Run(snaps + [s], cal) == Run(snaps, cal)
  {
    assert (snaps + [s])[..|snaps|] == snaps;
  }

  /** A fresh quote adds its own tick. */
  lemma FreshTick(snaps: seq<Snapshot>, s: Snapshot, cal: Calendar)
    requires Trades(s.ts, cal) && !StaleDay(s) && s.isTrade
    ensures var r, n := Run(snaps, cal), Run(snaps + [s], cal);
      && n.ticks == r.ticks + [Tick(r.memory, s)] && Volume(n.ticks) == Volume(r.ticks) + VolumeDelta(r.memory, s)
      && n.memory.prev == Some(s.cumulative) && n.memory.contract == Some(s.contract)
  {
  }
}
