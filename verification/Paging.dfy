/** A page of derived bars against the full aggregation. */
module Paging {
  import opened Common
  import opened Bucketing
  import opened Candles
  import A = Aggregation

  const MAX_FETCH := 200_000

  datatype Page = Page(bars: seq<A.Candle>, hasMore: bool)

  /** Number of rows strictly before a moment; rows are oldest first. */
  function CountBefore(rows: seq<A.Candle>, before: int): (n: nat)
    ensures n <= |rows|
    ensures forall i :: 0 <= i < n ==> rows[i].ts < before
    ensures n < |rows| ==> rows[n].ts >= before
  {
    if rows == [] || rows[0].ts >= before then 0 else 1 + CountBefore(rows[1..], before)
  }

  function Visible(rows: seq<A.Candle>, before: Option<int>): seq<A.Candle> {
    if before.Some? then rows[..CountBefore(rows, before.value)] else rows
  }

  function LastOf(s: seq<A.Candle>, n: nat): seq<A.Candle> { if |s| <= n then s else s[|s| - n..] }

  predicate ExistsBefore(rows: seq<A.Candle>, ts: int) { exists i :: 0 <= i < |rows| && rows[i].ts < ts }

  function Fetch(limit: nat, tf: nat): nat { if limit * tf + tf <= MAX_FETCH then limit * tf + tf else MAX_FETCH }

  /** The newest rows, aggregated; the oldest bar is dropped when the fetch may have cut it. */
  function PageDerived(rows: seq<A.Candle>, before: Option<int>, limit: nat, tf: nat, fetch: nat, cal: Calendar): Page
    requires tf > 0
  {
    var fetched := LastOf(Visible(rows, before), fetch);
    if fetched == [] then Page([], false)
    else
      var all := Bars(fetched, tf, cal);
      var whole := if |fetched| == fetch && |all| > 1 then all[1..] else all;
      var bars := LastOf(whole, limit);
      if bars == [] then Page([], false) else Page(bars, ExistsBefore(rows, bars[0].ts))
  }

  /** The full aggregation a page should be the end of. */
  function Full(rows: seq<A.Candle>, before: Option<int>, tf: nat, cal: Calendar): seq<A.Candle>
    requires tf > 0
  {
    Bars(Visible(rows, before), tf, cal)
  }

  // ---- Slices of a history ----

  lemma SliceIsHistory(rows: seq<A.Candle>, i: nat, j: nat, cal: Calendar)
    requires History(rows, cal) && i <= j <= |rows|
    ensures History(rows[i..j], cal)
  {
  }

  lemma VisibleIsHistory(rows: seq<A.Candle>, before: Option<int>, cal: Calendar)
    requires History(rows, cal)
    ensures History(Visible(rows, before), cal)
  {
  }

  /** What the fetched rows' bars have to do with all the bars. */
  lemma FetchedBars(rows: seq<A.Candle>, fetch: nat, tf: nat, cal: Calendar)
    requires tf > 0 && History(rows, cal) && fetch > 0 && rows != []
    ensures var part, whole := Bars(LastOf(rows, fetch), tf, cal), Bars(rows, tf, cal);
      A.Tails(whole, part) && (|rows| <= fetch ==> part == whole)
  {
    var fetched := LastOf(rows, fetch);
    var cut := |rows| - |fetched|;
    assert rows == rows[..cut] + fetched;
    SliceIsHistory(rows, cut, |rows|, cal);
    assert rows[cut..|rows|] == fetched;
    A.SuffixBars(rows[..cut], fetched, Buckets(tf), GateOf(cal));
  }

  lemma LastOfTail(whole: seq<A.Candle>, part: seq<A.Candle>, n: nat)
    requires A.Tails(whole, part) && n < |part|
    ensures LastOf(part[1..], n) == LastOf(whole, n)
  {
  }

  lemma CutShort(whole: seq<A.Candle>, part: seq<A.Candle>, n: nat)
    requires A.Tails(whole, part) && 1 < |part| <= n
    ensures |LastOf(part[1..], n)| < |LastOf(whole, n)|
  {
  }

  lemma PageShape(rows: seq<A.Candle>, before: Option<int>, limit: nat, tf: nat, fetch: nat, cal: Calendar)
    requires tf > 0 && LastOf(Visible(rows, before), fetch) != []
    ensures var fetched := LastOf(Visible(rows, before), fetch); var all := Bars(fetched, tf, cal);
      PageDerived(rows, before, limit, tf, fetch, cal).bars
      == LastOf(if |fetched| == fetch && |all| > 1 then all[1..] else all, limit)
  {
  }

  /** Dropping the oldest bar of a full fetch leaves the last bars of the whole exactly when enough remain. */
  lemma DroppedExactly(whole: seq<A.Candle>, part: seq<A.Candle>, full: bool, n: nat)
    requires A.Tails(whole, part) && (full ==> |part| != 1) && (!full ==> part == whole)
    ensures LastOf(if full && |part| > 1 then part[1..] else part, n) == LastOf(whole, n) <==> !full || |part| > n
  {
    if full && |part| > n {
      LastOfTail(whole, part, n);
    } else if full {
      CutShort(whole, part, n);
    }
  }

  /** A page is the last bars of the full aggregation exactly when the fetch reached the beginning or
      its rows span more buckets than the page needs. */
  lemma PageIsExactly(rows: seq<A.Candle>, before: Option<int>, limit: nat, tf: nat, fetch: nat, cal: Calendar)
    requires tf > 0 && limit > 0 && fetch > 0 && History(rows, cal)
    requires var b := |Bars(LastOf(Visible(rows, before), fetch), tf, cal)|; b != 1 || |Visible(rows, before)| < fetch
    ensures var fetched := LastOf(Visible(rows, before), fetch);
      PageDerived(rows, before, limit, tf, fetch, cal).bars == LastOf(Full(rows, before, tf, cal), limit)
      <==> |fetched| < fetch || |Bars(fetched, tf, cal)| > limit
  {
    var visible := Visible(rows, before);
    VisibleIsHistory(rows, before, cal);
    if visible != [] {
      FetchedBars(visible, fetch, tf, cal);
      var fetched := LastOf(visible, fetch);
      PageShape(rows, before, limit, tf, fetch, cal);
      DroppedExactly(Bars(visible, tf, cal), Bars(fetched, tf, cal), |fetched| == fetch, limit);
    }
  }

  /** The case left: a full fetch within one bucket. Its single bar is the page, which is right exactly when no more
      bars were asked for or there are, and the bar is whole. It is whole when no visible row before the fetch is
      in its bucket, and only then if every such row has some volume. */
  lemma OneBucketPage(rows: seq<A.Candle>, before: Option<int>, limit: nat, tf: nat, fetch: nat, cal: Calendar)
    requires tf > 0 && limit > 0 && fetch > 0 && History(rows, cal)
    requires |Visible(rows, before)| >= fetch && |Bars(LastOf(Visible(rows, before), fetch), tf, cal)| == 1
    ensures var visible, whole := Visible(rows, before), Full(rows, before, tf, cal);
      var older, bar := visible[..|visible| - fetch], Bars(LastOf(visible, fetch), tf, cal)[0];
      && whole != [] && PageDerived(rows, before, limit, tf, fetch, cal).bars == [bar]
      && (LastOf(whole, limit) == [bar] <==> (limit == 1 || |whole| == 1) && A.Last(whole) == bar)
      && (A.Group(older, Buckets(tf), bar.ts) == [] ==> A.Last(whole) == bar)
      && (A.Traded(older) && A.Last(whole) == bar ==> A.Group(older, Buckets(tf), bar.ts) == [])
  {
    var visible := Visible(rows, before);
    VisibleIsHistory(rows, before, cal);
    OneBucketBar(visible, fetch, tf, cal);
    PageShape(rows, before, limit, tf, fetch, cal);
  }

  lemma OneBucketBar(visible: seq<A.Candle>, fetch: nat, tf: nat, cal: Calendar)
    requires tf > 0 && 0 < fetch <= |visible| && History(visible, cal) && |Bars(LastOf(visible, fetch), tf, cal)| == 1
    ensures var whole := Bars(visible, tf, cal); var older, bar := visible[..|visible| - fetch], Bars(LastOf(visible, fetch), tf, cal)[0];
      && whole != []
      && (A.Group(older, Buckets(tf), bar.ts) == [] ==> A.Last(whole) == bar)
      && (A.Traded(older) && A.Last(whole) == bar ==> A.Group(older, Buckets(tf), bar.ts) == [])
  {
    var fetched := LastOf(visible, fetch);
    var older := visible[..|visible| - fetch];
    assert visible == older + fetched;
    FetchedBars(visible, fetch, tf, cal);
    HistoryIsRegular(visible, tf, cal);
    A.Halves(older, fetched, Buckets(tf), GateOf(cal));
    A.BarsSummarizeBuckets(visible, Buckets(tf), GateOf(cal));
    A.BarsSummarizeBuckets(fetched, Buckets(tf), GateOf(cal));
    var whole, part := Bars(visible, tf, cal), Bars(fetched, tf, cal);
    assert A.Summarizes(whole[|whole| - 1], visible, Buckets(tf)) && A.Summarizes(part[0], fetched, Buckets(tf));
    A.EarlierRowsShow(whole[|whole| - 1], part[0], older, fetched, Buckets(tf));
  }

  // ---- Stored rows ----

  /** Rows as they are stored: one a minute at most, each at the start of its own minute. */
  ghost predicate Stored(rows: seq<A.Candle>, cal: Calendar) {
    && History(rows, cal)
    && (forall i :: 0 <= i < |rows| ==> Canonical(rows[i].ts))
    && (forall i, j :: 0 <= i < j < |rows| ==> rows[i].ts < rows[j].ts)
  }

  /** Minutes of a row past its bucket's start, counting its own. */
  function Fill(ts: int, tf: nat): int
    requires tf > 0 && Canonical(ts)
  {
    (ts - BucketStart(ts, tf).value) / MINUTE + 1
  }

  lemma FillBounds(ts: int, tf: nat)
    requires tf > 0 && Canonical(ts)
    ensures BucketStart(ts, tf).Some? && 1 <= Fill(ts, tf) <= tf
  {
  }

  lemma FillGrows(a: int, b: int, tf: nat)
    requires tf > 0 && Canonical(a) && Canonical(b) && a < b
    requires BucketStart(a, tf) == BucketStart(b, tf)
    ensures BucketStart(a, tf).Some? && Fill(a, tf) + 1 <= Fill(b, tf)
  {
  }

  /** One more row adds a bar exactly when it opens a bucket. */
  lemma BarCount(before: seq<A.Candle>, r: A.Candle, tf: nat, cal: Calendar)
    requires tf > 0 && History(before + [r], cal) && History(before, cal)
    ensures |Bars(before + [r], tf, cal)|
         == |Bars(before, tf, cal)| + if before != [] && BucketStart(A.Last(before).ts, tf) == BucketStart(r.ts, tf) then 0 else 1
    ensures before != [] ==> |Bars(before, tf, cal)| > 0
  {
    HistoryIsRegular(before + [r], tf, cal);
    A.Prefixes(before, r, Buckets(tf), GateOf(cal));
    A.BarsInOrder(before, Buckets(tf), GateOf(cal));
    A.AggregateAppend(before, r, Buckets(tf), GateOf(cal));
  }

  lemma StoredSplit(before: seq<A.Candle>, r: A.Candle, cal: Calendar)
    requires Stored(before + [r], cal)
    ensures Stored(before, cal) && Canonical(r.ts) && (before != [] ==> Canonical(A.Last(before).ts) && A.Last(before).ts < r.ts)
  {
    var all := before + [r];
    assert all[|before|] == r;
    assert forall i :: 0 <= i < |before| ==> all[i] == before[i];
    if before != [] { assert all[|before| - 1] == A.Last(before); }
  }

  /** Rows a number of bars can hold when the last one has been filled this far. */
  predicate Holds(n: int, bars: int, fill: int, tf: nat) { n <= tf * (bars - 1) + fill }

  lemma HoldsMore(n: int, bars: int, was: int, now: int, tf: nat)
    requires Holds(n, bars, was, tf) && was + 1 <= now
    ensures Holds(n + 1, bars, now, tf)
  {
  }

  lemma HoldsNext(n: int, bars: int, was: int, now: int, tf: nat)
    requires Holds(n, bars, was, tf) && was <= tf && 1 <= now
    ensures Holds(n + 1, bars + 1, now, tf)
  {
  }

  lemma HoldsAll(n: int, bars: int, fill: int, tf: nat)
    requires Holds(n, bars, fill, tf) && fill <= tf
    ensures n <= tf * bars
  {
  }

  lemma {:induction false} RowsHeld(rows: seq<A.Candle>, tf: nat, cal: Calendar)
    requires tf > 0 && Stored(rows, cal) && rows != []
    ensures Canonical(A.Last(rows).ts) && Holds(|rows|, |Bars(rows, tf, cal)|, Fill(A.Last(rows).ts, tf), tf)
  {
    var before, r := rows[..|rows| - 1], A.Last(rows);
    assert before + [r] == rows;
    StoredSplit(before, r, cal);
    BarCount(before, r, tf, cal);
    FillBounds(r.ts, tf);
    if before != [] {
      var last := A.Last(before).ts;
      RowsHeld(before, tf, cal);
      FillBounds(last, tf);
      if BucketStart(last, tf) == BucketStart(r.ts, tf) {
        FillGrows(last, r.ts, tf);
        HoldsMore(|before|, |Bars(before, tf, cal)|, Fill(last, tf), Fill(r.ts, tf), tf);
      } else {
        HoldsNext(|before|, |Bars(before, tf, cal)|, Fill(last, tf), Fill(r.ts, tf), tf);
      }
    } else {
      assert Bars(before, tf, cal) == [];
    }
  }

  /** No bar is made of more than `tf` stored rows. */
  lemma RowsPerBar(rows: seq<A.Candle>, tf: nat, cal: Calendar)
    requires tf > 0 && Stored(rows, cal) && rows != []
    ensures |rows| <= tf * |Bars(rows, tf, cal)|
  {
    RowsHeld(rows, tf, cal);
    FillBounds(A.Last(rows).ts, tf);
    HoldsAll(|rows|, |Bars(rows, tf, cal)|, Fill(A.Last(rows).ts, tf), tf);
  }

  lemma VisibleIsStored(rows: seq<A.Candle>, before: Option<int>, fetch: nat, cal: Calendar)
    requires Stored(rows, cal)
    ensures Stored(Visible(rows, before), cal) && Stored(LastOf(Visible(rows, before), fetch), cal)
  {
  }

  /** A full fetch spans more buckets than the page asks for. */
  lemma FetchSpans(rows: seq<A.Candle>, limit: nat, tf: nat, cal: Calendar)
    requires tf > 0 && Stored(rows, cal) && |rows| == limit * tf + tf
    ensures |Bars(rows, tf, cal)| > limit
  {
    RowsPerBar(rows, tf, cal);
    var bars := |Bars(rows, tf, cal)|;
    assert (limit + 1) * tf == limit * tf + tf;
    assert (bars + 1) * tf == tf * bars + tf;
    Cancel(limit + 1, bars + 1, tf);
  }

  /** Main result: over stored rows and an uncapped fetch a page is the last bars of the full
      aggregation of everything before it. */
  lemma PageIsTheEnd(rows: seq<A.Candle>, before: Option<int>, limit: nat, tf: nat, cal: Calendar)
    requires tf > 0 && limit > 0 && Stored(rows, cal) && limit * tf + tf <= MAX_FETCH
    ensures PageDerived(rows, before, limit, tf, Fetch(limit, tf), cal).bars == LastOf(Full(rows, before, tf, cal), limit)
  {
    var fetch := Fetch(limit, tf);
    var fetched := LastOf(Visible(rows, before), fetch);
    VisibleIsStored(rows, before, fetch, cal);
    if |fetched| == fetch { FetchSpans(fetched, limit, tf, cal); }
    PageIsExactly(rows, before, limit, tf, fetch, cal);
  }

  // ---- Walking back ----

  /** Rows before a bar's start are exactly the rows of the earlier bars. */
  lemma BarCuts(rows: seq<A.Candle>, tf: nat, cal: Calendar, p: nat)
    requires tf > 0 && History(rows, cal) && p < |Bars(rows, tf, cal)|
    ensures var whole := Bars(rows, tf, cal);
      Bars(rows[..CountBefore(rows, whole[p].ts)], tf, cal) == whole[..p]
  {
    var key, gate := Buckets(tf), GateOf(cal);
    var whole := Bars(rows, tf, cal);
    var k := whole[p].ts;
    var n := CountBefore(rows, k);
    var a, b := rows[..n], rows[n..];
    assert a + b == rows;
    HistoryIsRegular(rows, tf, cal);
    A.BarsSummarizeBuckets(rows, key, gate);
    assert A.Summarizes(whole[p], rows, key);
    BucketOfStart(rows, tf, cal, k);
    CutBars(rows, tf, cal, k);
    A.BarsInOrder(rows, key, gate);
    CutPosition(A.Aggregate(a, key, gate), A.Aggregate(b, key, gate), p, k);
  }

  /** Cutting rows at a bucket's start cuts the bars there. */
  lemma CutBars(rows: seq<A.Candle>, tf: nat, cal: Calendar, k: int)
    requires tf > 0 && History(rows, cal) && BucketStart(k, tf) == Some(k)
    ensures var n := CountBefore(rows, k); var front, back := Bars(rows[..n], tf, cal), Bars(rows[n..], tf, cal);
      && Bars(rows, tf, cal) == front + back
      && (front != [] ==> A.Last(front).ts < k) && (back != [] ==> back[0].ts >= k)
  {
    var key, gate := Buckets(tf), GateOf(cal);
    var n := CountBefore(rows, k);
    var a, b := rows[..n], rows[n..];
    assert a + b == rows;
    HistoryIsRegular(rows, tf, cal);
    A.Halves(a, b, key, gate);
    CutIsApart(rows, tf, cal, k);
    A.CutBetweenBuckets(a, b, key, gate);
    A.BarsInOrder(a, key, gate);
    if b != [] {
      A.FirstBar(b, key, gate);
      assert b[0] == rows[n];
    }
    if a != [] { LastBefore(rows, n, k, tf, cal); }
  }

  lemma LastBefore(rows: seq<A.Candle>, n: nat, k: int, tf: nat, cal: Calendar)
    requires tf > 0 && 0 < n <= |rows| && rows[n - 1].ts < k && Trades(rows[n - 1].ts, cal)
    ensures BucketStart(A.Last(rows[..n]).ts, tf).Some? && BucketStart(A.Last(rows[..n]).ts, tf).value < k
  {
  }

  /** Where a bar stands among bars cut at its own start. */
  lemma CutPosition(front: seq<A.Candle>, back: seq<A.Candle>, p: nat, k: int)
    requires A.Ascending(front + back) && p < |front + back| && (front + back)[p].ts == k
    requires front != [] ==> A.Last(front).ts < k
    requires back != [] ==> back[0].ts >= k
    ensures p == |front| && (front + back)[..p] == front
  {
    var all := front + back;
    assert front != [] ==> all[|front| - 1] == A.Last(front);
    assert back != [] ==> all[|front|] == back[0];
  }

  /** Some row is in the bucket, so the start is a bucket start. */
  lemma {:induction false} BucketOfStart(rows: seq<A.Candle>, tf: nat, cal: Calendar, k: int)
    requires tf > 0 && A.Group(rows, Buckets(tf), k) != []
    ensures BucketStart(k, tf) == Some(k) && exists i :: 0 <= i < |rows| && BucketStart(rows[i].ts, tf) == Some(k)
  {
    var r := A.Last(rows);
    if BucketStart(r.ts, tf) == Some(k) {
      StartIsFixed(r.ts, tf);
      assert BucketStart(rows[|rows| - 1].ts, tf) == Some(k);
    } else {
      BucketOfStart(rows[..|rows| - 1], tf, cal, k);
    }
  }

  lemma CutIsApart(rows: seq<A.Candle>, tf: nat, cal: Calendar, k: int)
    requires tf > 0 && History(rows, cal) && BucketStart(k, tf) == Some(k)
    ensures var n := CountBefore(rows, k); A.Apart(rows[..n], rows[n..], Buckets(tf))
    ensures forall i :: 0 <= i < |rows| ==> (rows[i].ts < k <==> BucketStart(rows[i].ts, tf).value < k)
  {
    forall i | 0 <= i < |rows| ensures rows[i].ts < k <==> BucketStart(rows[i].ts, tf).value < k {
      StartBefore(rows[i].ts, tf);
      if rows[i].ts >= k { BucketsAreMonotone(k, rows[i].ts, tf); }
    }
    var n := CountBefore(rows, k);
    if 0 < n < |rows| {
      assert A.Last(rows[..n]) == rows[n - 1];
      assert rows[n..][0] == rows[n];
    }
  }

  /** Looking before a bar's start shows exactly the earlier bars. */
  lemma BeforeABar(rows: seq<A.Candle>, before: Option<int>, tf: nat, cal: Calendar, p: nat)
    requires tf > 0 && Stored(rows, cal) && p < |Full(rows, before, tf, cal)|
    ensures Full(rows, Some(Full(rows, before, tf, cal)[p].ts), tf, cal) == Full(rows, before, tf, cal)[..p]
    ensures ExistsBefore(rows, Full(rows, before, tf, cal)[p].ts) <==> p > 0
  {
    var visible := Visible(rows, before);
    var whole := Full(rows, before, tf, cal);
    var k := whole[p].ts;
    VisibleIsHistory(rows, before, cal);
    BarCuts(visible, tf, cal, p);
    HistoryIsRegular(visible, tf, cal);
    A.BarsSummarizeBuckets(visible, Buckets(tf), GateOf(cal));
    assert A.Summarizes(whole[p], visible, Buckets(tf));
    BucketOfStart(visible, tf, cal, k);
    SameCut(rows, before, k, tf);
    VisibleIsHistory(rows, Some(k), cal);
    if p > 0 {
      A.BarsInOrder(visible, Buckets(tf), GateOf(cal));
      assert Bars([], tf, cal) == [];
      assert rows[0].ts < k;
    } else {
      HistoryIsRegular(Visible(rows, Some(k)), tf, cal);
      A.BarsInOrder(Visible(rows, Some(k)), Buckets(tf), GateOf(cal));
      NoneBefore(rows, k);
    }
  }

  lemma NoneBefore(rows: seq<A.Candle>, k: int)
    requires CountBefore(rows, k) == 0 && forall i, j :: 0 <= i < j < |rows| ==> rows[i].ts <= rows[j].ts
    ensures !ExistsBefore(rows, k)
  {
  }

  /** A moment inside what is visible cuts all rows where it cuts the visible ones. */
  lemma SameCut(rows: seq<A.Candle>, before: Option<int>, k: int, tf: nat)
    requires tf > 0 && exists i :: 0 <= i < |Visible(rows, before)| && BucketStart(Visible(rows, before)[i].ts, tf) == Some(k)
    requires forall i, j :: 0 <= i < j < |rows| ==> rows[i].ts <= rows[j].ts
    ensures Visible(rows, Some(k)) == Visible(rows, before)[..CountBefore(Visible(rows, before), k)]
  {
    var visible := Visible(rows, before);
    var i :| 0 <= i < |visible| && BucketStart(visible[i].ts, tf) == Some(k);
    StartBefore(visible[i].ts, tf);
    var n, m := CountBefore(rows, k), CountBefore(visible, k);
    assert visible[i] == rows[i];
    assert n <= i && m <= i;
    assert n == m;
  }

  /** A page's has-more flag is exact. */
  lemma HasMoreIsExact(rows: seq<A.Candle>, before: Option<int>, limit: nat, tf: nat, cal: Calendar)
    requires tf > 0 && limit > 0 && Stored(rows, cal) && limit * tf + tf <= MAX_FETCH
    ensures var page := PageDerived(rows, before, limit, tf, Fetch(limit, tf), cal);
      && (page.hasMore <==> |Full(rows, before, tf, cal)| > |page.bars|)
      && (page.bars == [] <==> Full(rows, before, tf, cal) == [])
  {
    PageIsTheEnd(rows, before, limit, tf, cal);
    var page := PageDerived(rows, before, limit, tf, Fetch(limit, tf), cal);
    var whole := Full(rows, before, tf, cal);
    if whole != [] { BeforeABar(rows, before, tf, cal, |whole| - |page.bars|); }
  }

  lemma LastSplits(whole: seq<A.Candle>, n: nat)
    requires n > 0 && |whole| > |LastOf(whole, n)|
    ensures var p := |whole| - n; LastOf(whole, n) != [] && LastOf(whole, n)[0] == whole[p] && whole == whole[..p] + LastOf(whole, n)
  {
  }

  lemma RestOfPage(rows: seq<A.Candle>, before: Option<int>, limit: nat, tf: nat, cal: Calendar)
    requires tf > 0 && limit > 0 && Stored(rows, cal) && |Full(rows, before, tf, cal)| > limit
    ensures var bars := LastOf(Full(rows, before, tf, cal), limit);
      bars != [] && Full(rows, Some(bars[0].ts), tf, cal) + bars == Full(rows, before, tf, cal)
  {
    var whole := Full(rows, before, tf, cal);
    LastSplits(whole, limit);
    BeforeABar(rows, before, tf, cal, |whole| - limit);
  }

  /** A page and what asking before it would show make up the whole. */
  lemma PageAndRest(rows: seq<A.Candle>, before: Option<int>, limit: nat, tf: nat, cal: Calendar)
    requires tf > 0 && limit > 0 && Stored(rows, cal) && limit * tf + tf <= MAX_FETCH
    ensures var page := PageDerived(rows, before, limit, tf, Fetch(limit, tf), cal); var whole := Full(rows, before, tf, cal);
      && (page.hasMore ==> page.bars != [] && Full(rows, Some(page.bars[0].ts), tf, cal) + page.bars == whole)
      && (!page.hasMore ==> page.bars == whole)
  {
    var bars := PageDerived(rows, before, limit, tf, Fetch(limit, tf), cal).bars;
    PageIsTheEnd(rows, before, limit, tf, cal);
    HasMoreIsExact(rows, before, limit, tf, cal);
    var whole := Full(rows, before, tf, cal);
    assert bars == LastOf(whole, limit);
    if |whole| > |bars| { RestOfPage(rows, before, limit, tf, cal); }
  }

  /** Main result: asking again before the first bar of each page, until no more is promised, ends and
      yields the full aggregation, every bar once and in order. */
  ghost function WalkBack(rows: seq<A.Candle>, before: Option<int>, limit: nat, tf: nat, cal: Calendar): (bars: seq<A.Candle>)
    requires tf > 0 && limit > 0 && Stored(rows, cal) && limit * tf + tf <= MAX_FETCH
    ensures bars == Full(rows, before, tf, cal)
    decreases |Full(rows, before, tf, cal)|
  {
    PageAndRest(rows, before, limit, tf, cal);
    var page := PageDerived(rows, before, limit, tf, Fetch(limit, tf), cal);
    if page.hasMore then WalkBack(rows, Some(page.bars[0].ts), limit, tf, cal) + page.bars else page.bars
  }

  // ---- Rows at the close minute ----

  /** A row of the last five minutes of a day session, its close minute being the sixth. */
  function CloseRow(d: int, i: int): A.Candle { A.Candle(d * DAY + (820 + i) * MINUTE - OFFSET, 1.0, 1.0, 1.0, 1.0, 0) }

  function CloseDay(d: int): seq<A.Candle> { [CloseRow(d, 0), CloseRow(d, 1), CloseRow(d, 2), CloseRow(d, 3), CloseRow(d, 4), CloseRow(d, 5)] }

  function CloseDays(n: nat): seq<A.Candle> { if n == 0 then [] else CloseDays(n - 1) + CloseDay(n - 1) }

  function EveryDay(): Calendar { Calendar(d => true, d => false) }

  lemma CloseKey(d: int, i: int)
    requires 0 <= i <= 5
    ensures BucketStart(CloseRow(d, i).ts, 5) == Some(d * DAY + 820 * MINUTE - OFFSET) && Trades(CloseRow(d, i).ts, EveryDay())
  {
    var ts := CloseRow(d, i).ts;
    LocalParts(ts, d, (820 + i) * MINUTE);
    assert MinuteOfDay(ts) == 820 + i;
    assert Elapsed(ts, SessionOf(ts).value) / 5 == 59;
  }

  lemma {:induction false} CloseHistory(n: nat)
    ensures |CloseDays(n)| == 6 * n && History(CloseDays(n), EveryDay())
    ensures forall i :: 0 <= i < |CloseDays(n)| ==> CloseDays(n)[i].ts < n * DAY - OFFSET
    ensures forall i, j :: 0 <= i < j < |CloseDays(n)| ==> CloseDays(n)[i].ts < CloseDays(n)[j].ts
  {
    if n > 0 {
      CloseHistory(n - 1);
      var day := CloseDay(n - 1);
      forall i | 0 <= i < 6 ensures day[i] == CloseRow(n - 1, i) && Trades(day[i].ts, EveryDay()) { CloseKey(n - 1, i); }
    }
  }

  lemma OneCloseBar(d: int)
    ensures |Bars(CloseDay(d), 5, EveryDay())| == 1
    ensures BucketStart(CloseDay(d)[0].ts, 5) == Some(d * DAY + 820 * MINUTE - OFFSET)
  {
    var day, k := CloseDay(d), d * DAY + 820 * MINUTE - OFFSET;
    forall i | 0 <= i < 6 ensures BucketStart(day[i].ts, 5) == Some(k) && Trades(day[i].ts, EveryDay()) {
      assert day[i] == CloseRow(d, i);
      CloseKey(d, i);
    }
    A.OneBar(day, Buckets(5), GateOf(EveryDay()), k);
  }

  lemma JoinBars(front: seq<A.Candle>, back: seq<A.Candle>, tf: nat, cal: Calendar)
    requires tf > 0 && History(front + back, cal) && A.Apart(front, back, Buckets(tf))
    ensures Bars(front + back, tf, cal) == Bars(front, tf, cal) + Bars(back, tf, cal)
  {
    HistoryIsRegular(front + back, tf, cal);
    A.Halves(front, back, Buckets(tf), GateOf(cal));
    A.CutBetweenBuckets(front, back, Buckets(tf), GateOf(cal));
  }

  lemma CloseDaysApart(n: nat)
    ensures A.Apart(CloseDays(n), CloseDay(n), Buckets(5))
  {
    CloseHistory(n);
    OneCloseBar(n);
    if n > 0 { StartBefore(A.Last(CloseDays(n)).ts, 5); }
  }

  lemma {:induction false} CloseBars(n: nat)
    ensures |Bars(CloseDays(n), 5, EveryDay())| == n
  {
    if n > 0 {
      var front, day := CloseDays(n - 1), CloseDay(n - 1);
      CloseHistory(n);
      CloseBars(n - 1);
      OneCloseBar(n - 1);
      CloseDaysApart(n - 1);
      JoinBars(front, day, 5, EveryDay());
    }
  }

  /** Distinct, minute-aligned trading rows are not enough: with rows at the close minute a bucket can
      hold one row too many, and a page of five bars comes back with four. */
  lemma CloseMinuteRowsShortenThePage()
    ensures History(CloseDays(5), EveryDay())
    ensures forall i, j :: 0 <= i < j < |CloseDays(5)| ==> CloseDays(5)[i].ts < CloseDays(5)[j].ts
    ensures PageDerived(CloseDays(5), None, 5, 5, Fetch(5, 5), EveryDay()).bars
         != LastOf(Full(CloseDays(5), None, 5, EveryDay()), 5)
  {
    CloseHistory(5);
    CloseBars(5);
    PageIsExactly(CloseDays(5), None, 5, 5, Fetch(5, 5), EveryDay());
  }
}
