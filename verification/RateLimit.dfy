/** The token bucket that throttles requests by key. */
module RateLimit {
  datatype Level = Level(tokens: real, at: real)

  datatype Call = Call(key: nat, now: real)

  function Least(a: real, b: real): real { if a <= b then a else b }

  /** Tokens earned in some seconds at a rate per minute. */
  function Earned(seconds: real, rate: real): real { seconds * rate / 60.0 }

  /** The tokens a key has when a call comes in. */
  function Refilled(levels: map<nat, Level>, c: Call, rate: real, burst: real): real {
    var l := if c.key in levels then levels[c.key] else Level(burst, c.now);
    Least(burst, l.tokens + Earned(c.now - l.at, rate))
  }

  function Allow(levels: map<nat, Level>, c: Call, rate: real, burst: real): (map<nat, Level>, bool) {
    var tokens := Refilled(levels, c, rate, burst);
    if tokens >= 1.0 then (levels[c.key := Level(tokens - 1.0, c.now)], true)
    else (levels[c.key := Level(tokens, c.now)], false)
  }

  class TokenBucket {
    const rate: real
    const burst: real
    var levels: map<nat, Level>

    constructor (rate: real, burst: real)
      ensures this.rate == rate && this.burst == burst && levels == map[]
    {
      this.rate, this.burst := rate, burst;
      levels := map[];
    }

    method AllowCall(key: nat, now: real) returns (ok: bool)
      modifies this
      ensures (levels, ok) == Allow(old(levels), Call(key, now), rate, burst)
    {
      var tokens, last := burst, now;
      if key in levels {
        tokens, last := levels[key].tokens, levels[key].at;
      }
      tokens := Least(burst, tokens + Earned(now - last, rate));
      ok := tokens >= 1.0;
      levels := levels[key := Level(if ok then tokens - 1.0 else tokens, now)];
    }
  }

  // ---- Over whole histories ----

  function Levels(calls: seq<Call>, rate: real, burst: real): map<nat, Level> {
    if calls == [] then map[] else Allow(Levels(calls[..|calls| - 1], rate, burst), calls[|calls| - 1], rate, burst).0
  }

  predicate Allowed(calls: seq<Call>, i: nat, rate: real, burst: real)
    requires i < |calls|
  {
    Allow(Levels(calls[..i], rate, burst), calls[i], rate, burst).1
  }

  /** Calls of one key allowed from the `i`-th on. */
  function Granted(calls: seq<Call>, key: nat, i: nat, rate: real, burst: real): nat
    requires i <= |calls|
  {
    if |calls| == i then 0
    else
      var n := |calls| - 1;
      Granted(calls[..n], key, i, rate, burst) + if calls[n].key == key && Allowed(calls, n, rate, burst) then 1 else 0
  }

  predicate Forward(calls: seq<Call>) { forall i, j :: 0 <= i < j < |calls| ==> calls[i].now <= calls[j].now }

  /** What a key would have if asked at a given moment. */
  function Potential(levels: map<nat, Level>, key: nat, now: real, rate: real, burst: real): real {
    Refilled(levels, Call(key, now), rate, burst)
  }

  lemma Refill(elapsed: real, rate: real)
    requires elapsed >= 0.0 && rate >= 0.0
    ensures Earned(elapsed, rate) >= 0.0
  {
  }

  lemma EarnedAdds(a: real, b: real, whole: real, rate: real)
    requires whole == a + b
    ensures Earned(whole, rate) == Earned(a, rate) + Earned(b, rate)
  {
    assert whole * rate == a * rate + b * rate;
  }

  /** Tokens stay between nothing and the burst, and no key was last asked after the last call. */
  lemma {:induction false} TokensStayInRange(calls: seq<Call>, rate: real, burst: real, key: nat)
    requires Forward(calls) && rate >= 0.0 && burst >= 0.0 && key in Levels(calls, rate, burst)
    ensures var l := Levels(calls, rate, burst)[key]; 0.0 <= l.tokens <= burst && calls != [] && l.at <= calls[|calls| - 1].now
  {
    var n := |calls| - 1;
    var before, c := calls[..n], calls[n];
    var was := Levels(before, rate, burst);
    if c.key == key {
      if key in was {
        TokensStayInRange(before, rate, burst, key);
        Refill(c.now - was[key].at, rate);
      } else {
        Refill(0.0, rate);
      }
    } else {
      TokensStayInRange(before, rate, burst, key);
    }
  }

  /** Waiting earns at most the elapsed share of the rate. */
  lemma WaitingEarns(levels: map<nat, Level>, key: nat, from: real, to: real, rate: real, burst: real)
    requires from <= to && rate >= 0.0
    ensures Potential(levels, key, to, rate, burst) <= Potential(levels, key, from, rate, burst) + Earned(to - from, rate)
  {
    Refill(to - from, rate);
    if key in levels { EarnedAdds(from - levels[key].at, to - from, to - levels[key].at, rate); }
  }

  /** Granted calls are paid for by what the key had at the start of the window and what it earned. */
  lemma {:induction false} GrantedIsPaidFor(calls: seq<Call>, key: nat, i: nat, rate: real, burst: real)
    requires Forward(calls) && rate >= 0.0 && burst >= 0.0 && i < |calls|
    ensures var last := calls[|calls| - 1].now;
      Granted(calls, key, i, rate, burst) as real + Potential(Levels(calls, rate, burst), key, last, rate, burst)
      <= burst + Earned(last - calls[i].now, rate)
    decreases |calls|
  {
    var n := |calls| - 1;
    var before, c := calls[..n], calls[n];
    var was, now := Levels(before, rate, burst), Levels(calls, rate, burst);
    assert calls[..n] == before;
    if i < n {
      GrantedIsPaidFor(before, key, i, rate, burst);
      WaitingEarns(was, key, before[n - 1].now, c.now, rate, burst);
      EarnedAdds(before[n - 1].now - calls[i].now, c.now - before[n - 1].now, c.now - calls[i].now, rate);
    } else {
      assert Granted(before, key, i, rate, burst) == 0;
    }
    OneCall(was, c, key, rate, burst);
  }

  /** One call: a grant costs the key a token at once, and other keys nothing. */
  lemma OneCall(levels: map<nat, Level>, c: Call, key: nat, rate: real, burst: real)
    requires burst >= 0.0
    ensures var (n, ok) := Allow(levels, c, rate, burst);
      Potential(n, key, c.now, rate, burst) + (if c.key == key && ok then 1.0 else 0.0) <= Potential(levels, key, c.now, rate, burst)
    ensures Potential(levels, key, c.now, rate, burst) <= burst
  {
    assert Earned(c.now - c.now, rate) == 0.0;
  }

  /** Main result: in any window of `length` seconds a key is granted at most the burst plus what the
      rate earns in that time. */
  lemma RateBound(calls: seq<Call>, key: nat, i: nat, rate: real, burst: real, length: real)
    requires Forward(calls) && rate >= 0.0 && burst >= 0.0 && i < |calls| && calls[|calls| - 1].now - calls[i].now <= length
    ensures Granted(calls, key, i, rate, burst) as real <= burst + Earned(length, rate)
  {
    var last := calls[|calls| - 1].now;
    GrantedIsPaidFor(calls, key, i, rate, burst);
    PotentialIsPositive(calls, key, last, rate, burst);
    var spare := length - (last - calls[i].now);
    Refill(spare, rate);
    EarnedAdds(last - calls[i].now, spare, length, rate);
  }

  lemma PotentialIsPositive(calls: seq<Call>, key: nat, now: real, rate: real, burst: real)
    requires Forward(calls) && rate >= 0.0 && burst >= 0.0 && calls != [] && now >= calls[|calls| - 1].now
    ensures Potential(Levels(calls, rate, burst), key, now, rate, burst) >= 0.0
  {
    var levels := Levels(calls, rate, burst);
    if key in levels {
      TokensStayInRange(calls, rate, burst, key);
      Refill(now - levels[key].at, rate);
    } else {
      Refill(0.0, rate);
    }
  }
}
