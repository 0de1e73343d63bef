/** Session buckets and the trading calendar as the bucketing and the gate of the aggregation. */
module Candles {
  import opened Common
  import opened Bucketing
  import A = Aggregation

  /** Which anchor days trade, and on which of them the expiring contract stops early. */
  datatype Calendar = Calendar(trading: int -> bool, settlement: int -> bool)

  const SETTLEMENT_CLOSE := 810

  /** A moment of a real trading session. */
  predicate Trades(ts: int, cal: Calendar) {
    var s := SessionOf(ts);
    s.Some? && cal.trading(s.value.open / DAY)
    && !(s.value.kind == DaySession && cal.settlement(s.value.open / DAY) && MinuteOfDay(ts) > SETTLEMENT_CLOSE)
  }

  function Buckets(tf: int): A.Bucketing
    requires tf > 0
  {
    ts => BucketStart(ts, tf)
  }

  function GateOf(cal: Calendar): A.Gate { ts => Trades(ts, cal) }

  function Bars(rows: seq<A.Candle>, tf: int, cal: Calendar): seq<A.Candle>
    requires tf > 0
  {
    A.Aggregate(rows, Buckets(tf), GateOf(cal))
  }

  /** Trading rows, oldest first. */
  ghost predicate History(rows: seq<A.Candle>, cal: Calendar) {
    && (forall i :: 0 <= i < |rows| ==> Trades(rows[i].ts, cal))
    && (forall i, j :: 0 <= i < j < |rows| ==> rows[i].ts <= rows[j].ts)
  }

  lemma HistoryIsRegular(rows: seq<A.Candle>, tf: int, cal: Calendar)
    requires tf > 0 && History(rows, cal)
    ensures A.Regular(rows, Buckets(tf), GateOf(cal))
  {
    forall i, j | 0 <= i < j < |rows| ensures BucketStart(rows[i].ts, tf).value <= BucketStart(rows[j].ts, tf).value {
      BucketsAreMonotone(rows[i].ts, rows[j].ts, tf);
    }
  }

  /** The calendar gate looks at whole minutes of a session, so a moment's one-minute bucket passes with it. */
  lemma GateByMinute(ts: int, cal: Calendar)
    requires Trades(ts, cal)
    ensures Trades(BucketStart(ts, 1).value, cal)
  {
    StartInSession(ts, 1);
    StartBefore(ts, 1);
    var s := SessionOf(ts).value;
    if s.kind == DaySession { DayMinutes(ts, BucketStart(ts, 1).value, s); }
  }

  /** Within one day session, earlier moments are at earlier minutes. */
  lemma DayMinutes(ts: int, other: int, s: Session)
    requires SessionOf(ts) == Some(s) && SessionOf(other) == Some(s) && s.kind == DaySession && other <= ts
    ensures MinuteOfDay(other) <= MinuteOfDay(ts)
  {
    var d := LocalDay(ts);
    assert LocalDay(other) == d;
    assert ts + OFFSET == d * DAY + (ts + OFFSET) % DAY;
    assert other + OFFSET == d * DAY + (other + OFFSET) % DAY;
  }

  lemma MinutesNest(tf: int, cal: Calendar)
    requires tf > 0
    ensures A.Nests(Buckets(1), Buckets(tf), GateOf(cal))
  {
    forall ts: int
      ensures BucketStart(ts, 1).Some? <==> BucketStart(ts, tf).Some?
      ensures BucketStart(ts, 1).Some? ==> BucketStart(BucketStart(ts, 1).value, tf) == BucketStart(ts, tf)
      ensures BucketStart(ts, 1).Some? && Trades(ts, cal) ==> Trades(BucketStart(ts, 1).value, cal)
    {
      BucketsNest(ts, tf);
      if Trades(ts, cal) { GateByMinute(ts, cal); }
    }
  }

  /** Aggregating stored one-minute bars gives the bars of the rows they were built from. */
  lemma MinuteBarsSuffice(rows: seq<A.Candle>, tf: int, cal: Calendar)
    requires tf > 0 && History(rows, cal)
    ensures Bars(Bars(rows, 1, cal), tf, cal) == Bars(rows, tf, cal)
  {
    HistoryIsRegular(rows, 1, cal);
    HistoryIsRegular(rows, tf, cal);
    MinutesNest(tf, cal);
    A.TwoStagesAreOne(rows, Buckets(1), Buckets(tf), GateOf(cal));
  }
}
