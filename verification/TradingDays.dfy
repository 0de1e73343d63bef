/** Trading days over an arbitrary calendar: a night session belongs to the next trading day. Moments
    are local microseconds, days are numbered. */
module TradingDays {

  const DAY := 86_400_000_000
  const NIGHT := 54_000_000_000        // 15:00

  /** Trading days never run out, either way. */
  ghost predicate Unbounded(open: int -> bool) {
    && (forall d: int :: Ahead(open, d))
    && (forall d: int :: Behind(open, d))
  }

  ghost predicate Ahead(open: int -> bool, d: int) { exists e :: e > d && open(e) }

  ghost predicate Behind(open: int -> bool, d: int) { exists e :: e < d && open(e) }

  predicate ClosedBetween(open: int -> bool, lo: int, hi: int) { forall x :: lo < x < hi ==> !open(x) }

  ghost predicate IsNext(open: int -> bool, d: int, e: int) { e > d && open(e) && ClosedBetween(open, d, e) }

  ghost predicate IsPrevious(open: int -> bool, d: int, e: int) { e < d && open(e) && ClosedBetween(open, e, d) }

  /** The search stops at the first trading day after the given one. */
  method NextTradingDay(open: int -> bool, d: int) returns (next: int)
    requires Unbounded(open)
    ensures IsNext(open, d, next)
  {
    assert Ahead(open, d);
    ghost var stop :| stop > d && open(stop);
    next := d + 1;
    while !open(next)
      invariant d < next <= stop && ClosedBetween(open, d, next)
      decreases stop - next
    {
      next := next + 1;
    }
  }

  method PreviousTradingDay(open: int -> bool, d: int) returns (previous: int)
    requires Unbounded(open)
    ensures IsPrevious(open, d, previous)
  {
    assert Behind(open, d);
    ghost var stop :| stop < d && open(stop);
    previous := d - 1;
    while !open(previous)
      invariant stop <= previous < d && ClosedBetween(open, previous, d)
      decreases previous - stop
    {
      previous := previous - 1;
    }
  }

  /** Next and previous trading days are unique. */
  lemma NextIsUnique(open: int -> bool, d: int, a: int, b: int)
    requires IsNext(open, d, a) && IsNext(open, d, b)
    ensures a == b
  {
  }

  /** The trading day a moment belongs to. */
  ghost predicate IsTradingDayOf(open: int -> bool, t: int, e: int) {
    if t % DAY >= NIGHT then IsNext(open, t / DAY, e)
    else if open(t / DAY) then e == t / DAY
    else IsNext(open, t / DAY, e)
  }

  method TradingDayOf(open: int -> bool, t: int) returns (e: int)
    requires Unbounded(open)
    ensures IsTradingDayOf(open, t, e)
  {
    var d := t / DAY;
    if t % DAY >= NIGHT {
      e := NextTradingDay(open, d);
      return;
    }
    if open(d) {
      return d;
    }
    e := NextTradingDay(open, d);
  }

  /** First and last moment of a range of trading days: from the evening before the first to just
      before the evening of the last. */
  method TradingDayBounds(open: int -> bool, first: int, last: int) returns (lower: int, upper: int)
    requires Unbounded(open)
    ensures IsBounds(open, first, last, lower, upper)
  {
    var previous := PreviousTradingDay(open, first);
    lower := previous * DAY + NIGHT;
    upper := last * DAY + NIGHT - 1;
  }

  ghost predicate IsBounds(open: int -> bool, first: int, last: int, lower: int, upper: int) {
    (exists p :: IsPrevious(open, first, p) && lower == p * DAY + NIGHT) && upper == last * DAY + NIGHT - 1
  }

  /** Evenings count towards the following day. */
  function Shifted(t: int): int { if t % DAY >= NIGHT then t / DAY + 1 else t / DAY }

  lemma ShiftedBefore(t: int, d: int)
    ensures Shifted(t) <= d <==> t < d * DAY + NIGHT
  {
    assert t == (t / DAY) * DAY + t % DAY;
  }

  /** The trading day of a moment is the first one not before its shifted day. */
  lemma FirstFromShifted(open: int -> bool, t: int, e: int)
    requires IsTradingDayOf(open, t, e)
    ensures e >= Shifted(t) && open(e) && forall x :: Shifted(t) <= x < e ==> !open(x)
  {
  }

  /** Main result: a moment lies within the bounds of a range of trading days exactly when its trading
      day lies in the range. */
  lemma BoundsAreExact(open: int -> bool, first: int, last: int, t: int, e: int, lower: int, upper: int)
    requires open(first) && open(last) && first <= last
    requires IsTradingDayOf(open, t, e) && IsBounds(open, first, last, lower, upper)
    ensures lower <= t <= upper <==> first <= e <= last
  {
    var p :| IsPrevious(open, first, p) && lower == p * DAY + NIGHT;
    FirstFromShifted(open, t, e);
    ShiftedBefore(t, p);
    ShiftedBefore(t, last);
  }

  /** Later moments have no earlier trading day. */
  lemma TradingDayIsMonotone(open: int -> bool, t: int, u: int, e: int, f: int)
    requires t <= u && IsTradingDayOf(open, t, e) && IsTradingDayOf(open, u, f)
    ensures e <= f
  {
    FirstFromShifted(open, t, e);
    FirstFromShifted(open, u, f);
    ShiftedBefore(t, Shifted(u));
    ShiftedBefore(u, Shifted(u));
  }

  /** The bounds of consecutive ranges leave no gap and no overlap. */
  lemma RangesAbut(open: int -> bool, last: int, next: int, lower: int, upper: int, first: int, lower0: int, upper0: int)
    requires IsNext(open, last, next) && open(last)
    requires IsBounds(open, first, last, lower0, upper0) && IsBounds(open, next, next, lower, upper)
    ensures lower == upper0 + 1
  {
    var p :| IsPrevious(open, next, p) && lower == p * DAY + NIGHT;
    assert p == last;
  }
}
