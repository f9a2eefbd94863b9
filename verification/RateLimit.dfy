/** The fixed-window rate limiter: INCR plus EXPIRE on first use. Times are ticks of one clock; a key set with
    lifetime `w` at time `t` is gone from `t + w` on. */
module RateLimit {
  import opened Numbers

  datatype Counter = Counter(count: nat, expires: nat)

  type Store = map<string, Counter>

  /** One call `hit(key, limit, window)` at time `at`. */
  datatype Call = Call(key: string, at: nat, limit: nat, window: nat)

  /** What GET would see. */
  function Live(s: Store, key: string, now: nat): nat {
    if key in s && now < s[key].expires then s[key].count else 0
  }

  function HitTo(s: Store, c: Call): Store {
    if Live(s, c.key, c.at) == 0 then s[c.key := Counter(1, c.at + c.window)]
    else s[c.key := s[c.key].(count := s[c.key].count + 1)]
  }

  predicate Allowed(s: Store, c: Call) {
    Live(s, c.key, c.at) + 1 <= c.limit
  }

  class RateLimiter {
    var counters: Store

    constructor ()
      ensures counters == map[]
    {
      counters := map[];
    }

    method Hit(key: string, limit: nat, window: nat, now: nat) returns (allowed: bool, remaining: nat)
      modifies this
      ensures counters == HitTo(old(counters), Call(key, now, limit, window))
      ensures allowed == Allowed(old(counters), Call(key, now, limit, window))
      ensures var cur := Live(old(counters), key, now) + 1; remaining == if allowed then limit - cur else 0
    {
      var cur := Live(counters, key, now) + 1;
      if cur == 1 {
        counters := counters[key := Counter(cur, now + window)];
      } else {
        counters := counters[key := counters[key].(count := cur)];
      }
      allowed, remaining := cur <= limit, if limit < cur then 0 else limit - cur;
    }
  }

  function Run(hits: seq<Call>): Store {
    if hits == [] then map[] else HitTo(Run(hits[..|hits| - 1]), hits[|hits| - 1])
  }

  /** How many hits on `key` at times in `[a, b)` were let through. */
  function Admitted(hits: seq<Call>, key: string, a: int, b: int): nat {
    if hits == [] then 0
    else
      var front, c := hits[..|hits| - 1], hits[|hits| - 1];
      Admitted(front, key, a, b) + if c.key == key && a <= c.at < b && Allowed(Run(front), c) then 1 else 0
  }

  /** Time does not go backwards, and every hit on `key` uses this limit and window; other keys are hit in any way. */
  ghost predicate Timed(hits: seq<Call>, key: string, limit: nat, window: nat) {
    && (forall i, j :: 0 <= i < j < |hits| ==> hits[i].at <= hits[j].at)
    && (forall i :: 0 <= i < |hits| ==> hits[i].key == key ==> hits[i].limit == limit && hits[i].window == window)
  }

  lemma TimedFront(hits: seq<Call>, key: string, limit: nat, window: nat)
    requires Timed(hits, key, limit, window) && hits != []
    ensures Timed(hits[..|hits| - 1], key, limit, window)
  {}

  /** Every hit on `key` so far happened before its counter's expiry. */
  lemma {:induction false} HitsPrecedeExpiry(hits: seq<Call>, key: string, limit: nat, window: nat)
    requires Timed(hits, key, limit, window) && window > 0
    ensures key in Run(hits) ==> Run(hits)[key].count > 0 && Run(hits)[key].expires >= window
    ensures forall i :: 0 <= i < |hits| && hits[i].key == key ==>
        key in Run(hits) && hits[i].at < Run(hits)[key].expires
  {
    if hits != [] {
      var front := hits[..|hits| - 1];
      TimedFront(hits, key, limit, window);
      HitsPrecedeExpiry(front, key, limit, window);
      assert forall i :: 0 <= i < |front| ==> front[i] == hits[i];
    }
  }

  lemma {:induction false} NothingLater(hits: seq<Call>, key: string, a: int, b: int)
    requires forall i :: 0 <= i < |hits| && hits[i].key == key ==> hits[i].at < a
    ensures Admitted(hits, key, a, b) == 0
  {
    if hits != [] {
      var front := hits[..|hits| - 1];
      assert forall i :: 0 <= i < |front| ==> front[i] == hits[i];
      NothingLater(front, key, a, b);
    }
  }

  /** The counter window in force has let through exactly the smaller of its count and the limit: the limit at most. */
  lemma {:induction false} WindowAdmits(hits: seq<Call>, key: string, limit: nat, window: nat)
    requires Timed(hits, key, limit, window) && window > 0
    requires key in Run(hits)
    ensures var c := Run(hits)[key];
        Admitted(hits, key, c.expires - window, c.expires) == Min(c.count, limit)
  {
    var front, c := hits[..|hits| - 1], hits[|hits| - 1];
    TimedFront(hits, key, limit, window);
    HitsPrecedeExpiry(front, key, limit, window);
    if c.key == key && Live(Run(front), key, c.at) == 0 {
      assert forall i :: 0 <= i < |front| ==> front[i] == hits[i];
      NothingLater(front, key, c.at, c.at + window);
    } else {
      WindowAdmits(front, key, limit, window);
      HitsPrecedeExpiry(hits, key, limit, window);
      StartsInPast(front, key, limit, window);
    }
  }

  /** A window starts at a hit, so not after the last one. */
  lemma {:induction false} StartsInPast(hits: seq<Call>, key: string, limit: nat, window: nat)
    requires Timed(hits, key, limit, window) && window > 0 && key in Run(hits)
    ensures hits != [] && Run(hits)[key].expires - window <= hits[|hits| - 1].at
  {
    var front, c := hits[..|hits| - 1], hits[|hits| - 1];
    TimedFront(hits, key, limit, window);
    if c.key != key || Live(Run(front), key, c.at) > 0 { StartsInPast(front, key, limit, window); }
  }

  /** What an interval of one window length has seen, by where the window in force started. */
  ghost predicate Bounded(hits: seq<Call>, key: string, limit: nat, window: nat, a: int) {
    var seen := Admitted(hits, key, a, a + window);
    && (key !in Run(hits) ==> seen == 0)
    && (key in Run(hits) ==>
          var c := Run(hits)[key];
          && seen <= 2 * limit - 1
          && (c.expires < a + window ==> seen <= Min(c.count, limit) - 1)
          && (c.expires < a + 2 * window ==> seen <= limit - 1 + Min(c.count, limit)))
  }

  lemma {:induction false} AlwaysBounded(hits: seq<Call>, key: string, limit: nat, window: nat, a: int)
    requires Timed(hits, key, limit, window) && window > 0 && limit > 0
    ensures Bounded(hits, key, limit, window, a)
  {
    if hits != [] {
      var front, c := hits[..|hits| - 1], hits[|hits| - 1];
      TimedFront(hits, key, limit, window);
      AlwaysBounded(front, key, limit, window, a);
      HitsPrecedeExpiry(front, key, limit, window);
      if c.at < a { NothingLater(front, key, a, a + window); }
      if key in Run(front) { StartsInPast(front, key, limit, window); }
    }
  }

  lemma {:induction false} ZeroAdmitsNothing(hits: seq<Call>, key: string, window: nat, a: int, b: int)
    requires Timed(hits, key, 0, window)
    ensures Admitted(hits, key, a, b) == 0
  {
    if hits != [] {
      TimedFront(hits, key, 0, window);
      ZeroAdmitsNothing(hits[..|hits| - 1], key, window, a, b);
    }
  }

  /** Any interval as long as the window lets fewer than twice the limit through, wherever it starts and whatever
      happens on other keys. */
  lemma IntervalBound(hits: seq<Call>, key: string, limit: nat, window: nat, a: int)
    requires Timed(hits, key, limit, window) && window > 0
    ensures Admitted(hits, key, a, a + window) <= if limit == 0 then 0 else 2 * limit - 1
  {
    if limit == 0 {
      ZeroAdmitsNothing(hits, key, window, a, a + window);
    } else {
      AlwaysBounded(hits, key, limit, window, a);
    }
  }

  // ---------- the bound is tight ----------

  function Burst(key: string, at: nat, limit: nat, window: nat, n: nat): seq<Call> {
    if n == 0 then [] else Burst(key, at, limit, window, n - 1) + [Call(key, at, limit, window)]
  }

  lemma {:induction false} BurstShape(key: string, at: nat, limit: nat, window: nat, n: nat)
    ensures var b := Burst(key, at, limit, window, n);
        |b| == n && forall i :: 0 <= i < n ==> b[i] == Call(key, at, limit, window)
  {
    if n > 0 { BurstShape(key, at, limit, window, n - 1); }
  }

  lemma OneMore(hits: seq<Call>, c: Call, a: int, b: int)
    ensures Run(hits + [c]) == HitTo(Run(hits), c)
    ensures Admitted(hits + [c], c.key, a, b) ==
            Admitted(hits, c.key, a, b) + if a <= c.at < b && Allowed(Run(hits), c) then 1 else 0
  {
    assert (hits + [c])[..|hits|] == hits;
  }

  /** The run `more` lets `n` more hits on `key` through than `hits`, all counted in its live window. */
  ghost predicate Adds(hits: seq<Call>, more: seq<Call>, key: string, n: nat, a: int, b: int) {
    && key in Run(hits) && key in Run(more)
    && Run(more)[key] == Counter(Run(hits)[key].count + n, Run(hits)[key].expires)
    && Admitted(more, key, a, b) == Admitted(hits, key, a, b) + n
  }

  lemma RoomForOne(hits: seq<Call>, c: Call, a: int, b: int)
    requires 0 < Live(Run(hits), c.key, c.at) < c.limit && a <= c.at < b
    ensures Adds(hits, hits + [c], c.key, 1, a, b)
  {
    OneMore(hits, c, a, b);
  }

  /** A burst inside a live window that the limit still has room for is let through whole. */
  lemma {:induction false} BurstAdmitted(hits: seq<Call>, key: string, at: nat, limit: nat, window: nat, n: nat,
                                         a: int, b: int)
    requires Live(Run(hits), key, at) > 0 && Live(Run(hits), key, at) + n <= limit
    requires a <= at < b
    ensures Adds(hits, hits + Burst(key, at, limit, window, n), key, n, a, b)
  {
    if n == 0 {
      assert hits + Burst(key, at, limit, window, n) == hits;
    } else {
      var c, burst := Call(key, at, limit, window), Burst(key, at, limit, window, n - 1);
      BurstAdmitted(hits, key, at, limit, window, n - 1, a, b);
      RoomForOne(hits + burst, c, a, b);
      assert hits + (burst + [c]) == hits + burst + [c];
    }
  }

  /** One hit at 0, the rest of that window's allowance on its last tick, a full allowance on the next. */
  function Straddle(key: string, limit: nat, window: nat): seq<Call>
    requires limit > 0 && window > 1
  {
    [Call(key, 0, limit, window)] + Burst(key, window - 1, limit, window, limit - 1)
    + [Call(key, window, limit, window)] + Burst(key, window, limit, window, limit - 1)
  }

  lemma StraddleTimed(key: string, limit: nat, window: nat)
    requires limit > 0 && window > 1
    ensures Timed(Straddle(key, limit, window), key, limit, window)
  {
    BurstShape(key, window - 1, limit, window, limit - 1);
    BurstShape(key, window, limit, window, limit - 1);
  }

  lemma BoundIsTight(key: string, limit: nat, window: nat)
    requires limit > 0 && window > 1
    ensures Timed(Straddle(key, limit, window), key, limit, window)
    ensures Admitted(Straddle(key, limit, window), key, 1, 1 + window) == 2 * limit - 1
  {
    StraddleTimed(key, limit, window);
    var first, second := Call(key, 0, limit, window), Call(key, window, limit, window);
    OneMore([], first, 1, 1 + window);
    assert [] + [first] == [first];
    BurstAdmitted([first], key, window - 1, limit, window, limit - 1, 1, 1 + window);
    var two := [first] + Burst(key, window - 1, limit, window, limit - 1);
    OneMore(two, second, 1, 1 + window);
    BurstAdmitted(two + [second], key, window, limit, window, limit - 1, 1, 1 + window);
  }
}
