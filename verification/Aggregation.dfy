/** Aggregating ascending rows into bars, one bar a bucket, for any bucketing and any calendar gate;
    `Candles` supplies the session buckets and the trading calendar. */
module Aggregation {
  import opened Common

  datatype Candle = Candle(ts: int, open: real, high: real, low: real, close: real, volume: int)

  type Bucketing = int -> Option<int>
  type Gate = int -> bool

  function Max(a: real, b: real): real { if a >= b then a else b }

  function Min(a: real, b: real): real { if a <= b then a else b }

  function Merge(bar: Candle, r: Candle): Candle {
    bar.(high := Max(bar.high, r.high), low := Min(bar.low, r.low), close := r.close, volume := bar.volume + r.volume)
  }

  function Last(rows: seq<Candle>): Candle
    requires rows != []
  {
    rows[|rows| - 1]
  }

  /** Bars after one more row: skipped outside sessions, merged into the last bar of its bucket, and
      otherwise, if the calendar lets the row start one, a new bar. */
  function AddRow(out: seq<Candle>, r: Candle, key: Bucketing, gate: Gate): seq<Candle> {
    var k := key(r.ts);
    if k.None? then out
    else if out != [] && Last(out).ts == k.value then out[|out| - 1 := Merge(Last(out), r)]
    else if !gate(r.ts) then out
    else out + [r.(ts := k.value)]
  }

  function Aggregate(rows: seq<Candle>, key: Bucketing, gate: Gate): seq<Candle> {
    if rows == [] then [] else AddRow(Aggregate(rows[..|rows| - 1], key, gate), Last(rows), key, gate)
  }

  /** The loop, keeping the open bar apart until its bucket is over. */
  method AggregateIntraday(rows: seq<Candle>, key: Bucketing, gate: Gate) returns (out: seq<Candle>)
    ensures out == Aggregate(rows, key, gate)
  {
    out := [];
    var cur: Option<Candle> := None;
    var curKey: Option<int> := None;
    var i := 0;
    while i < |rows|
      invariant 0 <= i <= |rows|
      invariant cur.None? ==> curKey.None? && out == []
      invariant cur.Some? ==> curKey == Some(cur.value.ts)
      invariant Aggregate(rows[..i], key, gate) == out + if cur.Some? then [cur.value] else []
    {
      assert rows[..i + 1][..i] == rows[..i];
      var r := rows[i];
      var k := key(r.ts);
      if k.Some? {
        if k != curKey {
          if gate(r.ts) {
            if cur.Some? {
              out := out + [cur.value];
            }
            curKey := k;
            cur := Some(r.(ts := k.value));
          }
        } else {
          cur := Some(Merge(cur.value, r));
        }
      }
      i := i + 1;
    }
    assert rows[..i] == rows;
    if cur.Some? {
      out := out + [cur.value];
    }
  }

  // ---- Rows that all trade, bucket after bucket ----

  predicate Admits(r: Candle, key: Bucketing, gate: Gate) { key(r.ts).Some? && gate(r.ts) }

  ghost predicate Regular(rows: seq<Candle>, key: Bucketing, gate: Gate) {
    && (forall i :: 0 <= i < |rows| ==> Admits(rows[i], key, gate))
    && (forall i, j :: 0 <= i < j < |rows| ==> key(rows[i].ts).value <= key(rows[j].ts).value)
  }

  lemma AggregateAppend(rows: seq<Candle>, r: Candle, key: Bucketing, gate: Gate)
    ensures Aggregate(rows + [r], key, gate) == AddRow(Aggregate(rows, key, gate), r, key, gate)
  {
  }

  lemma Prefixes(rows: seq<Candle>, r: Candle, key: Bucketing, gate: Gate)
    requires Regular(rows + [r], key, gate)
    ensures Regular(rows, key, gate) && Admits(r, key, gate)
    ensures rows != [] ==> key(Last(rows).ts).value <= key(r.ts).value
  {
    var all := rows + [r];
    assert all[|rows|] == r;
    assert forall i :: 0 <= i < |rows| ==> all[i] == rows[i];
    assert rows != [] ==> all[|rows| - 1] == Last(rows);
  }

  ghost predicate Ascending(out: seq<Candle>) { forall i, j :: 0 <= i < j < |out| ==> out[i].ts < out[j].ts }

  /** Bars are non-empty, end with the last row's bucket, and follow each other strictly. */
  lemma {:induction false} BarsInOrder(rows: seq<Candle>, key: Bucketing, gate: Gate)
    requires Regular(rows, key, gate)
    ensures Ascending(Aggregate(rows, key, gate))
    ensures rows != [] ==> Aggregate(rows, key, gate) != [] && Last(Aggregate(rows, key, gate)).ts == key(Last(rows).ts).value
    ensures rows == [] ==> Aggregate(rows, key, gate) == []
  {
    if rows != [] {
      var before := rows[..|rows| - 1];
      assert before + [Last(rows)] == rows;
      Prefixes(before, Last(rows), key, gate);
      BarsInOrder(before, key, gate);
    }
  }

  lemma {:induction false} FirstBar(rows: seq<Candle>, key: Bucketing, gate: Gate)
    requires Regular(rows, key, gate) && rows != []
    ensures Aggregate(rows, key, gate) != [] && Aggregate(rows, key, gate)[0].ts == key(rows[0].ts).value
  {
    var before := rows[..|rows| - 1];
    assert before + [Last(rows)] == rows;
    Prefixes(before, Last(rows), key, gate);
    if before != [] { FirstBar(before, key, gate); }
  }

  /** Rows of one bucket make one bar. */
  lemma {:induction false} OneBar(rows: seq<Candle>, key: Bucketing, gate: Gate, k: int)
    requires rows != [] && gate(rows[0].ts) && forall i :: 0 <= i < |rows| ==> key(rows[i].ts) == Some(k)
    ensures |Aggregate(rows, key, gate)| == 1 && Aggregate(rows, key, gate)[0].ts == k
  {
    if |rows| > 1 { OneBar(rows[..|rows| - 1], key, gate, k); }
  }

  // ---- What a bar is ----

  /** The rows of one bucket. */
  function Group(rows: seq<Candle>, key: Bucketing, k: int): seq<Candle> {
    if rows == [] then []
    else Group(rows[..|rows| - 1], key, k) + if key(Last(rows).ts) == Some(k) then [Last(rows)] else []
  }

  function Highest(rows: seq<Candle>): real
    requires rows != []
  {
    if |rows| == 1 then rows[0].high else Max(Highest(rows[..|rows| - 1]), Last(rows).high)
  }

  function Lowest(rows: seq<Candle>): real
    requires rows != []
  {
    if |rows| == 1 then rows[0].low else Min(Lowest(rows[..|rows| - 1]), Last(rows).low)
  }

  function Volume(rows: seq<Candle>): int { if rows == [] then 0 else Volume(rows[..|rows| - 1]) + Last(rows).volume }

  /** First open, highest high, lowest low, last close, total volume. */
  function Summary(k: int, rows: seq<Candle>): Candle
    requires rows != []
  {
    Candle(k, rows[0].open, Highest(rows), Lowest(rows), Last(rows).close, Volume(rows))
  }

  lemma GroupAppend(rows: seq<Candle>, r: Candle, key: Bucketing, k: int)
    ensures Group(rows + [r], key, k) == if key(r.ts) == Some(k) then Group(rows, key, k) + [r] else Group(rows, key, k)
  {
  }

  lemma {:induction false} GroupJoin(a: seq<Candle>, b: seq<Candle>, key: Bucketing, k: int)
    ensures Group(a + b, key, k) == Group(a, key, k) + Group(b, key, k)
  {
    if b == [] {
      assert a + b == a;
    } else {
      var c, r := b[..|b| - 1], Last(b);
      assert a + b == (a + c) + [r] && b == c + [r];
      GroupJoin(a, c, key, k);
      GroupAppend(a + c, r, key, k);
    }
  }

  lemma {:induction false} VolumeJoin(a: seq<Candle>, b: seq<Candle>)
    ensures Volume(a + b) == Volume(a) + Volume(b)
  {
    if b == [] {
      assert a + b == a;
    } else {
      assert (a + b)[..|a + b| - 1] == a + b[..|b| - 1];
      VolumeJoin(a, b[..|b| - 1]);
    }
  }

  predicate Traded(rows: seq<Candle>) { forall i :: 0 <= i < |rows| ==> rows[i].volume > 0 }

  lemma {:induction false} GroupVolume(rows: seq<Candle>, key: Bucketing, k: int)
    requires Traded(rows)
    ensures Volume(Group(rows, key, k)) >= 0 && (Volume(Group(rows, key, k)) == 0 <==> Group(rows, key, k) == [])
  {
    if rows != [] {
      var before, r := rows[..|rows| - 1], Last(rows);
      assert rows == before + [r] && rows[|rows| - 1].volume > 0;
      GroupVolume(before, key, k);
      GroupAppend(before, r, key, k);
      VolumeJoin(Group(before, key, k), [r]);
    }
  }

  /** A bar of later rows is the bar of all rows when no earlier row is in its bucket, and only then if every
      earlier row has some volume. */
  lemma EarlierRowsShow(bar: Candle, part: Candle, a: seq<Candle>, b: seq<Candle>, key: Bucketing)
    requires Summarizes(bar, a + b, key) && Summarizes(part, b, key) && bar.ts == part.ts
    ensures Group(a, key, part.ts) == [] ==> bar == part
    ensures Traded(a) && bar == part ==> Group(a, key, part.ts) == []
  {
    GroupJoin(a, b, key, part.ts);
    VolumeJoin(Group(a, key, part.ts), Group(b, key, part.ts));
    if Group(a, key, part.ts) == [] { assert [] + Group(b, key, part.ts) == Group(b, key, part.ts); }
    if Traded(a) { GroupVolume(a, key, part.ts); }
  }

  lemma {:induction false} NoRowsYet(rows: seq<Candle>, key: Bucketing, k: int, gate: Gate)
    requires Regular(rows, key, gate) && (rows == [] || key(Last(rows).ts).value < k)
    ensures Group(rows, key, k) == []
  {
    if rows != [] {
      var before := rows[..|rows| - 1];
      assert before + [Last(rows)] == rows;
      Prefixes(before, Last(rows), key, gate);
      NoRowsYet(before, key, k, gate);
      GroupAppend(before, Last(rows), key, k);
    }
  }

  predicate Summarizes(bar: Candle, rows: seq<Candle>, key: Bucketing) {
    Group(rows, key, bar.ts) != [] && bar == Summary(bar.ts, Group(rows, key, bar.ts))
  }

  lemma JoinedSummary(bar: Candle, rows: seq<Candle>, r: Candle, key: Bucketing)
    requires Summarizes(bar, rows, key) && key(r.ts) == Some(bar.ts)
    ensures Summarizes(Merge(bar, r), rows + [r], key)
  {
  }

  lemma StartedSummary(rows: seq<Candle>, r: Candle, key: Bucketing, gate: Gate)
    requires Regular(rows, key, gate) && key(r.ts).Some? && (rows == [] || key(Last(rows).ts).value < key(r.ts).value)
    ensures Summarizes(r.(ts := key(r.ts).value), rows + [r], key)
  {
    var k := key(r.ts).value;
    GroupAppend(rows, r, key, k);
    NoRowsYet(rows, key, k, gate);
    assert Group(rows + [r], key, k) == [r];
    assert Highest([r]) == r.high && Lowest([r]) == r.low && Volume([r]) == r.volume;
  }

  /** The bar the newest row starts or joins. */
  lemma NewestSummary(rows: seq<Candle>, r: Candle, key: Bucketing, gate: Gate)
    requires Regular(rows + [r], key, gate)
    requires Aggregate(rows, key, gate) != [] ==> Summarizes(Last(Aggregate(rows, key, gate)), rows, key)
    ensures var out := Aggregate(rows + [r], key, gate);
      out != [] && Last(out).ts == key(r.ts).value && Summarizes(Last(out), rows + [r], key)
  {
    var was := Aggregate(rows, key, gate);
    Prefixes(rows, r, key, gate);
    AggregateAppend(rows, r, key, gate);
    BarsInOrder(rows, key, gate);
    if was != [] && Last(was).ts == key(r.ts).value {
      JoinedSummary(Last(was), rows, r, key);
    } else {
      StartedSummary(rows, r, key, gate);
    }
  }

  /** One more row leaves the earlier bars, and the summaries of their buckets, alone. */
  lemma EarlierBars(rows: seq<Candle>, r: Candle, key: Bucketing, gate: Gate, i: nat)
    requires Regular(rows + [r], key, gate) && i + 1 < |Aggregate(rows + [r], key, gate)|
    ensures i < |Aggregate(rows, key, gate)| && Aggregate(rows + [r], key, gate)[i] == Aggregate(rows, key, gate)[i]
    ensures Aggregate(rows, key, gate)[i].ts != key(r.ts).value
  {
  }

  lemma SummaryStep(rows: seq<Candle>, r: Candle, key: Bucketing, gate: Gate)
    requires Regular(rows + [r], key, gate)
    requires forall i :: 0 <= i < |Aggregate(rows, key, gate)| ==> Summarizes(Aggregate(rows, key, gate)[i], rows, key)
    ensures forall i :: 0 <= i < |Aggregate(rows + [r], key, gate)| ==> Summarizes(Aggregate(rows + [r], key, gate)[i], rows + [r], key)
  {
    var was, out := Aggregate(rows, key, gate), Aggregate(rows + [r], key, gate);
    NewestSummary(rows, r, key, gate);
    forall i | 0 <= i < |out| - 1 ensures Summarizes(out[i], rows + [r], key) {
      EarlierBars(rows, r, key, gate, i);
      assert Summarizes(was[i], rows, key);
      GroupAppend(rows, r, key, was[i].ts);
    }
  }

  /** Each bar summarizes exactly the rows of its bucket. */
  lemma {:induction false} BarsSummarizeBuckets(rows: seq<Candle>, key: Bucketing, gate: Gate)
    requires Regular(rows, key, gate)
    ensures forall i :: 0 <= i < |Aggregate(rows, key, gate)| ==> Summarizes(Aggregate(rows, key, gate)[i], rows, key)
  {
    if rows != [] {
      var before := rows[..|rows| - 1];
      assert before + [Last(rows)] == rows;
      Prefixes(before, Last(rows), key, gate);
      BarsSummarizeBuckets(before, key, gate);
      SummaryStep(before, Last(rows), key, gate);
    }
  }

  predicate HasBar(out: seq<Candle>, k: int) { exists i :: 0 <= i < |out| && out[i].ts == k }

  lemma BarsStay(rows: seq<Candle>, r: Candle, key: Bucketing, gate: Gate, k: int)
    requires HasBar(Aggregate(rows, key, gate), k)
    ensures HasBar(Aggregate(rows + [r], key, gate), k)
  {
    AggregateAppend(rows, r, key, gate);
    var was, out := Aggregate(rows, key, gate), Aggregate(rows + [r], key, gate);
    var i :| 0 <= i < |was| && was[i].ts == k;
    assert out[i].ts == k;
  }

  /** Every row's bucket has its bar. */
  lemma {:induction false} EveryBucketHasABar(rows: seq<Candle>, key: Bucketing, gate: Gate, j: nat)
    requires Regular(rows, key, gate) && j < |rows|
    ensures HasBar(Aggregate(rows, key, gate), key(rows[j].ts).value)
  {
    var before := rows[..|rows| - 1];
    assert before + [Last(rows)] == rows;
    Prefixes(before, Last(rows), key, gate);
    if j == |rows| - 1 {
      BarsInOrder(rows, key, gate);
      var out := Aggregate(rows, key, gate);
      assert out[|out| - 1].ts == key(rows[j].ts).value;
    } else {
      EveryBucketHasABar(before, key, gate, j);
      BarsStay(before, Last(rows), key, gate, key(rows[j].ts).value);
    }
  }

  // ---- Aggregating in two stages ----

  /** Every fine bucket lies in one coarse bucket, and passes the gate if a moment of it does. */
  ghost predicate Nests(fine: Bucketing, coarse: Bucketing, gate: Gate) {
    && (forall ts :: fine(ts).Some? <==> coarse(ts).Some?)
    && (forall ts :: fine(ts).Some? ==> coarse(fine(ts).value) == coarse(ts))
    && (forall ts :: fine(ts).Some? && gate(ts) ==> gate(fine(ts).value))
  }

  /** The row joins the open fine bar, and so the open coarse one. */
  lemma JoinsBoth(bars: seq<Candle>, out: seq<Candle>, r: Candle, fine: Bucketing, coarse: Bucketing, gate: Gate)
    requires bars != [] && fine(r.ts) == Some(Last(bars).ts) && Admits(Last(bars), coarse, gate)
    requires coarse(r.ts) == coarse(Last(bars).ts) && out == Aggregate(bars, coarse, gate)
    requires out != [] && Last(out).ts == coarse(r.ts).value
    ensures Aggregate(AddRow(bars, r, fine, gate), coarse, gate) == AddRow(out, r, coarse, gate)
  {
  }

  /** The row starts a fine bar, which counts for the coarse one as the row does. */
  lemma StartsFine(bars: seq<Candle>, r: Candle, fine: Bucketing, coarse: Bucketing, gate: Gate)
    requires fine(r.ts).Some? && gate(r.ts) && gate(fine(r.ts).value) && coarse(fine(r.ts).value) == coarse(r.ts)
    requires bars == [] || Last(bars).ts != fine(r.ts).value
    ensures Aggregate(AddRow(bars, r, fine, gate), coarse, gate) == AddRow(Aggregate(bars, coarse, gate), r, coarse, gate)
  {
  }

  lemma {:induction false} FineBarsRegular(rows: seq<Candle>, fine: Bucketing, coarse: Bucketing, gate: Gate)
    requires Nests(fine, coarse, gate) && Regular(rows, fine, gate) && Regular(rows, coarse, gate)
    ensures forall i :: 0 <= i < |Aggregate(rows, fine, gate)| ==> Admits(Aggregate(rows, fine, gate)[i], coarse, gate)
  {
    if rows != [] {
      var before := rows[..|rows| - 1];
      assert before + [Last(rows)] == rows;
      Prefixes(before, Last(rows), fine, gate);
      Prefixes(before, Last(rows), coarse, gate);
      FineBarsRegular(before, fine, coarse, gate);
    }
  }

  lemma TwoStageStep(rows: seq<Candle>, r: Candle, fine: Bucketing, coarse: Bucketing, gate: Gate)
    requires Nests(fine, coarse, gate) && Regular(rows + [r], fine, gate) && Regular(rows + [r], coarse, gate)
    requires Aggregate(Aggregate(rows, fine, gate), coarse, gate) == Aggregate(rows, coarse, gate)
    ensures Aggregate(Aggregate(rows + [r], fine, gate), coarse, gate) == Aggregate(rows + [r], coarse, gate)
  {
    var bars := Aggregate(rows, fine, gate);
    Prefixes(rows, r, fine, gate);
    Prefixes(rows, r, coarse, gate);
    AggregateAppend(rows, r, fine, gate);
    AggregateAppend(rows, r, coarse, gate);
    BarsInOrder(rows, fine, gate);
    BarsInOrder(rows, coarse, gate);
    FineBarsRegular(rows, fine, coarse, gate);
    if bars != [] && Last(bars).ts == fine(r.ts).value {
      assert coarse(Last(bars).ts) == coarse(Last(rows).ts);
      JoinsBoth(bars, Aggregate(rows, coarse, gate), r, fine, coarse, gate);
    } else {
      StartsFine(bars, r, fine, coarse, gate);
    }
  }

  /** Nesting, for bars: aggregating finer bars is aggregating the rows themselves. */
  lemma {:induction false} TwoStagesAreOne(rows: seq<Candle>, fine: Bucketing, coarse: Bucketing, gate: Gate)
    requires Nests(fine, coarse, gate) && Regular(rows, fine, gate) && Regular(rows, coarse, gate)
    ensures Aggregate(Aggregate(rows, fine, gate), coarse, gate) == Aggregate(rows, coarse, gate)
  {
    if rows != [] {
      var before := rows[..|rows| - 1];
      assert before + [Last(rows)] == rows;
      Prefixes(before, Last(rows), fine, gate);
      Prefixes(before, Last(rows), coarse, gate);
      TwoStagesAreOne(before, fine, coarse, gate);
      TwoStageStep(before, Last(rows), fine, coarse, gate);
    }
  }

  // ---- Cutting the rows ----

  /** The first rows end in an earlier bucket than the others begin in. */
  predicate Apart(a: seq<Candle>, b: seq<Candle>, key: Bucketing) {
    a != [] && b != [] ==> key(Last(a).ts).Some? && key(b[0].ts).Some? && key(Last(a).ts).value < key(b[0].ts).value
  }

  lemma AddRowAfter(front: seq<Candle>, out: seq<Candle>, r: Candle, key: Bucketing, gate: Gate)
    requires Admits(r, key, gate) && (out == [] && front != [] ==> Last(front).ts != key(r.ts).value)
    ensures AddRow(front + out, r, key, gate) == front + AddRow(out, r, key, gate)
  {
  }

  lemma CutStep(a: seq<Candle>, c: seq<Candle>, r: Candle, key: Bucketing, gate: Gate)
    requires Regular(a, key, gate) && Regular(c + [r], key, gate) && Apart(a, c + [r], key)
    requires Aggregate(a + c, key, gate) == Aggregate(a, key, gate) + Aggregate(c, key, gate)
    ensures Aggregate((a + c) + [r], key, gate) == Aggregate(a, key, gate) + Aggregate(c + [r], key, gate)
  {
    AggregateAppend(a + c, r, key, gate);
    AggregateAppend(c, r, key, gate);
    Prefixes(c, r, key, gate);
    BarsInOrder(c, key, gate);
    BarsInOrder(a, key, gate);
    assert c == [] ==> (c + [r])[0] == r;
    AddRowAfter(Aggregate(a, key, gate), Aggregate(c, key, gate), r, key, gate);
  }

  /** Cutting rows between two buckets cuts the bars there. */
  lemma {:induction false} CutBetweenBuckets(a: seq<Candle>, b: seq<Candle>, key: Bucketing, gate: Gate)
    requires Regular(a, key, gate) && Regular(b, key, gate) && Apart(a, b, key)
    ensures Aggregate(a + b, key, gate) == Aggregate(a, key, gate) + Aggregate(b, key, gate)
  {
    if b == [] {
      assert a + b == a;
    } else {
      var c, r := b[..|b| - 1], Last(b);
      assert a + b == (a + c) + [r];
      assert b == c + [r];
      Prefixes(c, r, key, gate);
      CutBetweenBuckets(a, c, key, gate);
      CutStep(a, c, r, key, gate);
    }
  }

  lemma Halves(a: seq<Candle>, b: seq<Candle>, key: Bucketing, gate: Gate)
    requires Regular(a + b, key, gate)
    ensures Regular(a, key, gate) && Regular(b, key, gate)
  {
    var all := a + b;
    assert forall i :: 0 <= i < |a| ==> all[i] == a[i];
    assert forall i :: 0 <= i < |b| ==> all[|a| + i] == b[i];
  }

  /** Bars of some last rows against the bars of all rows: the same but for the first of them, which
      may be cut short. */
  predicate Tails(whole: seq<Candle>, part: seq<Candle>) {
    1 <= |part| <= |whole| && whole[|whole| - |part| + 1..] == part[1..] && whole[|whole| - |part|].ts == part[0].ts
  }

  lemma TailsStep(whole: seq<Candle>, part: seq<Candle>, r: Candle, key: Bucketing, gate: Gate)
    requires Tails(whole, part) && Admits(r, key, gate)
    ensures Tails(AddRow(whole, r, key, gate), AddRow(part, r, key, gate))
  {
  }

  lemma TailsStart(whole: seq<Candle>, r: Candle, key: Bucketing, gate: Gate)
    requires Admits(r, key, gate)
    ensures Tails(AddRow(whole, r, key, gate), AddRow([], r, key, gate))
  {
  }

  lemma {:induction false} SuffixBars(a: seq<Candle>, b: seq<Candle>, key: Bucketing, gate: Gate)
    requires b != [] && forall i :: 0 <= i < |b| ==> Admits(b[i], key, gate)
    ensures Tails(Aggregate(a + b, key, gate), Aggregate(b, key, gate))
  {
    var c, r := b[..|b| - 1], Last(b);
    assert a + b == (a + c) + [r];
    assert b == c + [r];
    AggregateAppend(a + c, r, key, gate);
    AggregateAppend(c, r, key, gate);
    if c == [] {
      TailsStart(Aggregate(a + c, key, gate), r, key, gate);
    } else {
      SuffixBars(a, c, key, gate);
      TailsStep(Aggregate(a + c, key, gate), Aggregate(c, key, gate), r, key, gate);
    }
  }

  // ---- Rows the calendar refuses ----

  /** The rows that count: those of a bucket some admitted row has begun, from that row on. */
  function Kept(rows: seq<Candle>, key: Bucketing, gate: Gate): (r: seq<Candle>)
    ensures forall i :: 0 <= i < |r| ==> key(r[i].ts).Some?
  {
    if rows == [] then []
    else
      var front, r := Kept(rows[..|rows| - 1], key, gate), Last(rows);
      if key(r.ts).None? then front
      else if (front != [] && key(Last(front).ts) == key(r.ts)) || gate(r.ts) then front + [r]
      else front
  }

  function Anything(): Gate { ts => true }

  lemma {:induction false} KeptAggregate(rows: seq<Candle>, key: Bucketing, gate: Gate)
    ensures Aggregate(rows, key, gate) == Aggregate(Kept(rows, key, gate), key, Anything())
    ensures var out, kept := Aggregate(rows, key, gate), Kept(rows, key, gate);
      (out == [] <==> kept == []) && (out != [] ==> Some(Last(out).ts) == key(Last(kept).ts))
  {
    if rows != [] {
      var front, r := rows[..|rows| - 1], Last(rows);
      KeptAggregate(front, key, gate);
      var kept := Kept(front, key, gate);
      AggregateAppend(kept, r, key, Anything());
    }
  }

  /** Buckets, where there are any, follow each other. */
  ghost predicate InOrder(rows: seq<Candle>, key: Bucketing) {
    forall i, j | 0 <= i < j < |rows| && key(rows[i].ts).Some? && key(rows[j].ts).Some? :: key(rows[i].ts).value <= key(rows[j].ts).value
  }

  lemma {:induction false} KeptInOrder(rows: seq<Candle>, key: Bucketing, gate: Gate)
    requires InOrder(rows, key)
    ensures InOrder(Kept(rows, key, gate), key) && forall x :: x in Kept(rows, key, gate) ==> x in rows
  {
    if rows != [] {
      var front, r := rows[..|rows| - 1], Last(rows);
      assert forall i :: 0 <= i < |front| ==> front[i] == rows[i];
      KeptInOrder(front, key, gate);
      var kept := Kept(front, key, gate);
      forall i | 0 <= i < |kept| && key(r.ts).Some? ensures key(kept[i].ts).value <= key(r.ts).value {
        assert kept[i] in front;
        var j :| 0 <= j < |front| && front[j] == kept[i];
        assert rows[j] == kept[i] && rows[|rows| - 1] == r;
      }
    }
  }

  /** For any rows in order, whatever the calendar says of them: each bar summarizes the rows of its bucket
      from the first admitted one on. */
  lemma BarsSummarizeKeptRows(rows: seq<Candle>, key: Bucketing, gate: Gate)
    requires InOrder(rows, key)
    ensures forall i :: 0 <= i < |Aggregate(rows, key, gate)| ==> Summarizes(Aggregate(rows, key, gate)[i], Kept(rows, key, gate), key)
  {
    KeptAggregate(rows, key, gate);
    KeptInOrder(rows, key, gate);
    BarsSummarizeBuckets(Kept(rows, key, gate), key, Anything());
  }

  /** Rows that are all admitted all count. */
  lemma {:induction false} AdmittedRowsCount(rows: seq<Candle>, key: Bucketing, gate: Gate)
    requires forall i :: 0 <= i < |rows| ==> Admits(rows[i], key, gate)
    ensures Kept(rows, key, gate) == rows
  {
    if rows != [] {
      AdmittedRowsCount(rows[..|rows| - 1], key, gate);
      assert rows[..|rows| - 1] + [Last(rows)] == rows;
    }
  }
}
