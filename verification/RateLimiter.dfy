/** The token bucket that guards one WebSocket connection of the signaling server. */
module RateLimiter {

  /** Messages per interval, and the interval's length in milliseconds. */
  datatype Limits = Limits(tokens: int, interval: int) {
    predicate Valid() { tokens >= 1 && interval >= 1 }
  }

  /** `tokens` is decremented for refused messages too, so it may be negative. */
  datatype Bucket = Bucket(tokens: int, lastRefill: int)

  /** What the clock showed when the handler tested the interval, and when it
      stored the refill time. A handler that does not refill reads it only once. */
  datatype Reading = Reading(now: int, again: int)

  function Fresh(lim: Limits, now: int): Bucket { Bucket(lim.tokens, now) }

  predicate Refills(lim: Limits, b: Bucket, r: Reading) { r.now - b.lastRefill >= lim.interval }

  function After(lim: Limits, b: Bucket, r: Reading): Bucket {
    if Refills(lim, b, r) then Bucket(lim.tokens - 1, r.again) else Bucket(b.tokens - 1, b.lastRefill)
  }

  predicate Admits(lim: Limits, b: Bucket, r: Reading) { After(lim, b, r).tokens >= 0 }

  /** The per-connection variables `tokens` and `lastRefill`. */
  class Limiter {
    const lim: Limits
    var tokens: int
    var lastRefill: int

    function State(): Bucket reads this { Bucket(tokens, lastRefill) }

    constructor (lim: Limits, now: int)
      ensures this.lim == lim && State() == Fresh(lim, now)
    {
      this.lim := lim;
      tokens := lim.tokens;
      lastRefill := now;
    }

    method Admit(r: Reading) returns (ok: bool)
      modifies this
      ensures State() == After(lim, old(State()), r)
      ensures ok == Admits(lim, old(State()), r)
    {
      if r.now - lastRefill >= lim.interval {
        tokens := lim.tokens;
        lastRefill := r.again;
      }
      tokens := tokens - 1;
      ok := !(tokens < 0);
    }
  }

  /** The moment of a message: the last clock reading its handler makes. */
  function Moment(lim: Limits, b: Bucket, r: Reading): int {
    if Refills(lim, b, r) then r.again else r.now
  }

  /** The clock never runs backwards, within a handler or between handlers. */
  predicate Monotone(lim: Limits, b: Bucket, from: int, run: seq<Reading>)
    decreases run
  {
    run == [] ||
    (from <= run[0].now <= run[0].again &&
     Monotone(lim, After(lim, b, run[0]), Moment(lim, b, run[0]), run[1..]))
  }

  /** The messages of `run` whose moment lies in [lo, hi). */
  function Arrived(lim: Limits, b: Bucket, run: seq<Reading>, lo: int, hi: int): nat
    decreases run
  {
    if run == [] then 0
    else (if lo <= Moment(lim, b, run[0]) < hi then 1 else 0)
         + Arrived(lim, After(lim, b, run[0]), run[1..], lo, hi)
  }

  /** Those of them that are not answered with 429. */
  function Accepted(lim: Limits, b: Bucket, run: seq<Reading>, lo: int, hi: int): nat
    decreases run
  {
    if run == [] then 0
    else (if lo <= Moment(lim, b, run[0]) < hi && Admits(lim, b, run[0]) then 1 else 0)
         + Accepted(lim, After(lim, b, run[0]), run[1..], lo, hi)
  }

  predicate AllAccepted(lim: Limits, b: Bucket, run: seq<Reading>)
    decreases run
  {
    run == [] || (Admits(lim, b, run[0]) && AllAccepted(lim, After(lim, b, run[0]), run[1..]))
  }

  function Left(b: Bucket): nat { if b.tokens > 0 then b.tokens else 0 }

  lemma OneMore(n: int, k: int)
    ensures n * (k + 1) == n * k + n
  {}

  lemma ProductAtLeast(n: int, k: int)
    requires n >= 0 && k >= 0
    ensures n * k >= 0
  {}

  lemma {:induction false} NothingAfter(lim: Limits, b: Bucket, from: int, run: seq<Reading>, lo: int, hi: int)
    requires Monotone(lim, b, from, run) && hi <= from
    ensures Arrived(lim, b, run, lo, hi) == 0 && Accepted(lim, b, run, lo, hi) == 0
    decreases run
  {
    if run != [] {
      NothingAfter(lim, After(lim, b, run[0]), Moment(lim, b, run[0]), run[1..], lo, hi);
    }
  }

  /** When fewer than k + 1 intervals end between the last refill and time t, at
      most the tokens left and k full buckets get through up to t. */
  lemma {:induction false} UpperBoundFrom(lim: Limits, b: Bucket, from: int, run: seq<Reading>, lo: int, t: int, k: nat)
    requires lim.Valid() && t - b.lastRefill < lim.interval * (k + 1)
    requires Monotone(lim, b, from, run)
    ensures Accepted(lim, b, run, lo, t + 1) <= Left(b) + lim.tokens * k
    decreases run
  {
    ProductAtLeast(lim.tokens, k);
    if run != [] {
      var b', m := After(lim, b, run[0]), Moment(lim, b, run[0]);
      if m > t {
        NothingAfter(lim, b', m, run[1..], lo, t + 1);
      } else if Refills(lim, b, run[0]) {
        assert k > 0;
        OneMore(lim.interval, k);
        OneMore(lim.tokens, k - 1);
        UpperBoundFrom(lim, b', m, run[1..], lo, t, k - 1);
      } else {
        UpperBoundFrom(lim, b', m, run[1..], lo, t, k);
      }
    }
  }

  /** At most N messages for each interval begun since the connection opened. */
  lemma RateUpperBound(lim: Limits, t0: int, run: seq<Reading>, t: int)
    requires lim.Valid() && t0 <= t && Monotone(lim, Fresh(lim, t0), t0, run)
    ensures Accepted(lim, Fresh(lim, t0), run, t0, t + 1) <= lim.tokens * (1 + (t - t0) / lim.interval)
  {
    var q := (t - t0) / lim.interval;
    OneMore(lim.interval, q);
    OneMore(lim.tokens, q);
    UpperBoundFrom(lim, Fresh(lim, t0), t0, run, t0, t, q);
  }

  /** While no interval can end before `hi`, only the tokens left get through. */
  lemma {:induction false} NoRefillBound(lim: Limits, b: Bucket, from: int, run: seq<Reading>, lo: int, hi: int)
    requires lim.Valid() && hi <= b.lastRefill + lim.interval
    requires Monotone(lim, b, from, run)
    ensures Accepted(lim, b, run, lo, hi) <= Left(b)
    decreases run
  {
    if run != [] {
      var b', m := After(lim, b, run[0]), Moment(lim, b, run[0]);
      if m >= hi {
        NothingAfter(lim, b', m, run[1..], lo, hi);
      } else {
        NoRefillBound(lim, b', m, run[1..], lo, hi);
      }
    }
  }

  /** Any half-open span of one interval lets at most two buckets through. */
  lemma {:induction false} BurstBound(lim: Limits, b: Bucket, from: int, run: seq<Reading>, s: int)
    requires lim.Valid() && b.tokens <= lim.tokens && Monotone(lim, b, from, run)
    ensures Accepted(lim, b, run, s, s + lim.interval) <= 2 * lim.tokens
    decreases run
  {
    if run != [] {
      var b', m := After(lim, b, run[0]), Moment(lim, b, run[0]);
      if m < s {
        BurstBound(lim, b', m, run[1..], s);
      } else {
        BurstFrom(lim, b, from, run, s);
      }
    }
  }

  lemma {:induction false} BurstFrom(lim: Limits, b: Bucket, from: int, run: seq<Reading>, s: int)
    requires lim.Valid() && b.tokens <= lim.tokens && Monotone(lim, b, from, run)
    requires run != [] ==> s <= Moment(lim, b, run[0])
    ensures Accepted(lim, b, run, s, s + lim.interval) <= Left(b) + lim.tokens
    decreases run
  {
    if run != [] {
      var b', m := After(lim, b, run[0]), Moment(lim, b, run[0]);
      if m >= s + lim.interval {
        NothingAfter(lim, b', m, run[1..], s, s + lim.interval);
      } else if Refills(lim, b, run[0]) {
        NoRefillBound(lim, b', m, run[1..], s, s + lim.interval);
      } else {
        BurstFrom(lim, b', m, run[1..], s);
      }
    }
  }

  /** The messages within one interval from s on. */
  function Span(lim: Limits, b: Bucket, run: seq<Reading>, s: int): nat {
    Arrived(lim, b, run, s, s + lim.interval)
  }

  /** No span of one interval holds more than N messages. */
  ghost predicate Conforms(lim: Limits, b: Bucket, run: seq<Reading>) {
    forall s :: Span(lim, b, run, s) <= lim.tokens
  }

  lemma {:induction false} ConformingFrom(lim: Limits, b: Bucket, from: int, run: seq<Reading>)
    requires lim.Valid() && b.lastRefill <= from && Monotone(lim, b, from, run) && Conforms(lim, b, run)
    requires Span(lim, b, run, b.lastRefill) <= b.tokens
    ensures AllAccepted(lim, b, run)
    decreases run
  {
    if run != [] {
      var b', m := After(lim, b, run[0]), Moment(lim, b, run[0]);
      assert Conforms(lim, b', run[1..]) by {
        forall s ensures Span(lim, b', run[1..], s) <= lim.tokens {
          assert Span(lim, b, run, s) <= lim.tokens;
        }
      }
      assert Span(lim, b, run, m) <= lim.tokens;
      ConformingFrom(lim, b', m, run[1..]);
    }
  }

  /** A sender who keeps to N messages in every span of one interval is never
      refused, wherever the refill points fall. */
  lemma ConformingSenderIsNeverRefused(lim: Limits, t0: int, run: seq<Reading>)
    requires lim.Valid() && Monotone(lim, Fresh(lim, t0), t0, run)
    requires Conforms(lim, Fresh(lim, t0), run)
    ensures AllAccepted(lim, Fresh(lim, t0), run)
  {
    assert Span(lim, Fresh(lim, t0), run, t0) <= lim.tokens;
    ConformingFrom(lim, Fresh(lim, t0), t0, run);
  }
}
