/** Session-anchored candle buckets: Taipei local time in milliseconds, a day session and a night
    session that crosses midnight, and a close tick that belongs to the last bucket. */
module Bucketing {
  import opened Common

  const MINUTE := 60_000
  const DAY := 86_400_000
  const OFFSET := 28_800_000           // Taipei is eight hours ahead, all year

  const DAY_OPEN := 525                // minutes of the local day
  const DAY_CLOSE := 825
  const NIGHT_OPEN := 900
  const NIGHT_CLOSE := 300
  const DAY_MINUTES := 300
  const NIGHT_MINUTES := 840

  datatype Kind = DaySession | NightSession

  /** A session: when it opens, in local milliseconds, and how many minutes it lasts. */
  datatype Session = Session(open: int, minutes: int, kind: Kind)

  function LocalDay(ts: int): int { (ts + OFFSET) / DAY }

  function MinuteOfDay(ts: int): int { ((ts + OFFSET) % DAY) / MINUTE }

  /** The session a moment belongs to, by the minute it falls in. */
  function SessionOf(ts: int): Option<Session> {
    var d, t := LocalDay(ts), MinuteOfDay(ts);
    if DAY_OPEN <= t <= DAY_CLOSE then Some(Session(d * DAY + DAY_OPEN * MINUTE, DAY_MINUTES, DaySession))
    else if t >= NIGHT_OPEN then Some(Session(d * DAY + NIGHT_OPEN * MINUTE, NIGHT_MINUTES, NightSession))
    else if t <= NIGHT_CLOSE then Some(Session((d - 1) * DAY + NIGHT_OPEN * MINUTE, NIGHT_MINUTES, NightSession))
    else None
  }

  /** Minutes since the open, the close itself counting as the last minute. */
  function Elapsed(ts: int, s: Session): int {
    var e := (ts + OFFSET - s.open) / MINUTE;
    if e >= s.minutes then s.minutes - 1 else e
  }

  function BucketStart(ts: int, tf: int): Option<int>
    requires tf > 0
  {
    var s := SessionOf(ts);
    if s.None? then None
    else Some(s.value.open + (Elapsed(ts, s.value) / tf) * tf * MINUTE - OFFSET)
  }

  // ---- Where a moment is ----

  /** Minutes of a session and only they belong to it; the close minute is one past the last. */
  lemma SessionSpan(ts: int)
    requires SessionOf(ts).Some?
    ensures var s := SessionOf(ts).value;
      && 0 <= ts + OFFSET - s.open < (s.minutes + 1) * MINUTE
      && s.minutes > 0 && 0 <= Elapsed(ts, s) < s.minutes
  {
    var local := ts + OFFSET;
    assert local == LocalDay(ts) * DAY + local % DAY;
    var r := local % DAY;
    assert r == MinuteOfDay(ts) * MINUTE + r % MINUTE;
  }

  /** Any moment inside a session's minutes is in that session. */
  lemma InSession(ts: int, s: Session, other: int)
    requires SessionOf(ts) == Some(s) && 0 <= other + OFFSET - s.open < (s.minutes + 1) * MINUTE
    ensures SessionOf(other) == Some(s)
  {
    var d := if MinuteOfDay(ts) <= NIGHT_CLOSE then LocalDay(ts) - 1 else LocalDay(ts);
    var off := other + OFFSET - d * DAY;
    assert 0 <= off < 2 * DAY;
    LocalParts(other, d, off);
  }

  lemma LocalParts(ts: int, d: int, off: int)
    requires ts + OFFSET == d * DAY + off && 0 <= off < 2 * DAY
    ensures LocalDay(ts) == (if off < DAY then d else d + 1)
    ensures MinuteOfDay(ts) == (if off < DAY then off else off - DAY) / MINUTE
  {
  }

  lemma DivBounds(x: int, k: int)
    requires k > 0
    ensures (x / k) * k <= x < (x / k) * k + k
  {
  }

  /** A whole number of minutes after the open. */
  lemma MinutesAfter(open: int, e: int)
    ensures (open + e * MINUTE - open) / MINUTE == e
  {
  }

  /** A bucket start lies in its session, at the minute it names. */
  lemma StartInSession(ts: int, tf: int)
    requires tf > 0 && SessionOf(ts).Some?
    ensures var s := SessionOf(ts).value; var e := (Elapsed(ts, s) / tf) * tf;
      && 0 <= e <= Elapsed(ts, s) < s.minutes
      && BucketStart(ts, tf) == Some(s.open + e * MINUTE - OFFSET)
      && SessionOf(BucketStart(ts, tf).value) == Some(s)
      && Elapsed(BucketStart(ts, tf).value, s) == e
  {
    SessionSpan(ts);
    var s := SessionOf(ts).value;
    var e := (Elapsed(ts, s) / tf) * tf;
    DivBounds(Elapsed(ts, s), tf);
    assert e >= 0 by { assert Elapsed(ts, s) / tf >= 0; }
    var start := s.open + e * MINUTE - OFFSET;
    assert start + OFFSET - s.open == e * MINUTE;
    InSession(ts, s, start);
    MinutesAfter(s.open, e);
    assert (start + OFFSET - s.open) / MINUTE == e;
    assert BucketStart(ts, tf) == Some(start) by { assert (Elapsed(ts, s) / tf) * tf * MINUTE == e * MINUTE; }
  }

  /** Nesting: the bucket of a moment is the bucket of its one-minute bucket, close tick and midnight
      included, and a moment has the one exactly when it has the other. */
  lemma BucketsNest(ts: int, tf: int)
    requires tf > 0
    ensures BucketStart(ts, 1).Some? <==> BucketStart(ts, tf).Some?
    ensures BucketStart(ts, 1).Some? ==> BucketStart(BucketStart(ts, 1).value, tf) == BucketStart(ts, tf)
  {
    if SessionOf(ts).Some? {
      StartInSession(ts, 1);
      StartInSession(ts, tf);
      StartInSession(BucketStart(ts, 1).value, tf);
    }
  }

  /** A bucket start is its own bucket start. */
  lemma StartIsFixed(ts: int, tf: int)
    requires tf > 0 && BucketStart(ts, tf).Some?
    ensures BucketStart(BucketStart(ts, tf).value, tf) == BucketStart(ts, tf)
  {
    StartInSession(ts, tf);
    var s := SessionOf(ts).value;
    var q := Elapsed(ts, s) / tf;
    assert (q * tf) / tf == q by { DivBounds(q * tf, tf); QuotientOf(q, tf); }
    StartInSession(BucketStart(ts, tf).value, tf);
  }

  lemma Cancel(x: int, y: int, k: int)
    requires k > 0 && x * k < y * k
    ensures x < y
  {
    assert (y - x) * k > 0;
  }

  lemma DivUnique(x: int, k: int, q: int)
    requires k > 0 && q * k <= x < (q + 1) * k
    ensures x / k == q
  {
    DivBounds(x, k);
    Cancel(q, x / k + 1, k);
    Cancel(x / k, q + 1, k);
  }

  lemma QuotientOf(q: int, k: int)
    requires k > 0
    ensures (q * k) / k == q
  {
    assert (q + 1) * k == q * k + k;
    DivUnique(q * k, k, q);
  }

  /** A bucket does not begin after the moments in it, and it covers fewer than `tf` further minutes,
      apart from the close minute. */
  lemma StartBefore(ts: int, tf: int)
    requires tf > 0 && BucketStart(ts, tf).Some?
    ensures BucketStart(ts, tf).value <= ts
  {
    StartInSession(ts, tf);
    SessionSpan(ts);
    var s := SessionOf(ts).value;
    DivBounds(ts + OFFSET - s.open, MINUTE);
  }

  /** Two sessions that are not the same do not overlap. */
  lemma SessionsApart(a: int, b: int)
    requires a <= b && SessionOf(a).Some? && SessionOf(b).Some? && SessionOf(a) != SessionOf(b)
    ensures SessionOf(a).value.open + SessionOf(a).value.minutes * MINUTE < SessionOf(b).value.open
  {
    var sa, sb := SessionOf(a).value, SessionOf(b).value;
    SessionSpan(a);
    SessionSpan(b);
    if sb.open <= sa.open + sa.minutes * MINUTE {
      if sb.open >= sa.open {
        InSession(a, sa, sb.open - OFFSET);
        InSession(b, sb, sb.open - OFFSET);
      } else {
        InSession(b, sb, a);
      }
    }
  }

  /** Buckets follow the clock. */
  lemma BucketsAreMonotone(a: int, b: int, tf: int)
    requires tf > 0 && a <= b && BucketStart(a, tf).Some? && BucketStart(b, tf).Some?
    ensures BucketStart(a, tf).value <= BucketStart(b, tf).value
  {
    StartInSession(a, tf);
    StartInSession(b, tf);
    var sa, sb := SessionOf(a).value, SessionOf(b).value;
    if sa == sb {
      ElapsedMonotone(a, b, sa);
      QuotientMonotone(Elapsed(a, sa), Elapsed(b, sa), tf);
    } else {
      SessionsApart(a, b);
    }
  }

  lemma ElapsedMonotone(a: int, b: int, s: Session)
    requires a <= b
    ensures Elapsed(a, s) <= Elapsed(b, s)
  {
  }

  lemma Times(x: int, y: int, k: int)
    requires x <= y && k > 0
    ensures x * k <= y * k
  {
    assert (y - x) * k >= 0;
  }

  lemma QuotientMonotone(a: int, b: int, k: int)
    requires k > 0 && a <= b
    ensures (a / k) * k <= (b / k) * k
  {
    DivBounds(a, k);
    DivBounds(b, k);
    assert (b / k + 1) * k == (b / k) * k + k;
    Cancel(a / k, b / k + 1, k);
    Times(a / k, b / k, k);
  }

  /** When a bucket is final: at the next bucket's start, or at the session's close. */
  function BucketClose(ts: int, tf: int): int {
    var s := SessionOf(ts);
    if s.None? then ts
    else
      var close := s.value.open + s.value.minutes * MINUTE - OFFSET;
      if ts + tf * MINUTE <= close then ts + tf * MINUTE else close
  }

  /** Before the close of its session a moment is in a bucket exactly between its start and its close. */
  lemma BucketInterval(ts: int, k: int, tf: int)
    requires tf > 0 && SessionOf(ts).Some? && SessionOf(ts) == SessionOf(k) && BucketStart(k, tf) == Some(k)
    requires ts + OFFSET < SessionOf(ts).value.open + SessionOf(ts).value.minutes * MINUTE
    ensures BucketStart(ts, tf) == Some(k) <==> k <= ts < BucketClose(k, tf)
  {
    var s := SessionOf(ts).value;
    StartInSession(k, tf);
    StartInSession(ts, tf);
    SessionSpan(ts);
    var q := Elapsed(k, s) / tf;
    var x := ts + OFFSET - s.open;
    assert k + OFFSET - s.open == q * tf * MINUTE;
    DivBounds(x, MINUTE);
    DivBounds(x / MINUTE, tf);
    assert x / MINUTE < s.minutes by { Cancel(x / MINUTE, s.minutes, MINUTE); }
    assert Elapsed(ts, s) == x / MINUTE;
    MinuteBlocks(x, q, tf);
    SameBlock(x / MINUTE, q, tf);
  }

  /** Being in a block of minutes, in milliseconds and in minutes. */
  lemma MinuteBlocks(x: int, q: int, tf: int)
    requires tf > 0
    ensures q * tf * MINUTE <= x < q * tf * MINUTE + tf * MINUTE <==> q * tf <= x / MINUTE < q * tf + tf
  {
  }

  lemma SameBlock(e: int, q: int, tf: int)
    requires tf > 0
    ensures (e / tf) * tf == q * tf <==> q * tf <= e < q * tf + tf
  {
    DivBounds(e, tf);
    assert (q + 1) * tf == q * tf + tf;
    if q * tf <= e < q * tf + tf { DivUnique(e, tf, q); }
  }

  // ---- Canonical rows ----

  /** One-minute rows as the builder stores them: at the start of their own minute bucket. */
  predicate Canonical(ts: int) { BucketStart(ts, 1) == Some(ts) }

  /** The canonical rows of one bucket lie within `tf` minutes of its start, on whole minutes. */
  lemma CanonicalSpan(ts: int, tf: int)
    requires tf > 0 && Canonical(ts)
    ensures BucketStart(ts, tf).Some?
    ensures var k := BucketStart(ts, tf).value; k <= ts <= k + (tf - 1) * MINUTE && (ts - k) % MINUTE == 0
  {
    BucketsNest(ts, tf);
    StartInSession(ts, 1);
    StartInSession(ts, tf);
    var s := SessionOf(ts).value;
    var e := Elapsed(ts, s);
    DivBounds(e, tf);
    assert (e / 1) * 1 == e;
    assert ts == s.open + e * MINUTE - OFFSET;
    var k := BucketStart(ts, tf).value;
    assert ts - k == (e - (e / tf) * tf) * MINUTE;
  }
}
