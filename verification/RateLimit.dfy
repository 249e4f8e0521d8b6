/**
 The fixed-window limiter: one counter per name and identity, expiring a fixed time after its first hit.
 Texts are numbers and 0 is the empty one; instants are whole units of any clock that does not go back.
 */
module RateLimit {
  import opened Common

  datatype Counter = Counter(hits: nat, expires: int)

  type Key = (nat, nat)

  /** INCR, and EXPIRE only if the key has no time to live yet; an expired key is gone. */
  function Hit(c: Option<Counter>, window: int, now: int): Counter {
    if c.Some? && now < c.value.expires then c.value.(hits := c.value.hits + 1) else Counter(1, now + window)
  }

  function Get<K(==), V>(m: map<K, V>, k: K): Option<V> { if k in m then Some(m[k]) else None }

  class Limiter {
    var counters: map<Key, Counter>

    constructor ()
      ensures counters == map[]
    {
      counters := map[];
    }

    /** Whether the call may go on; without an identity or a limit it always may, and counts nothing. */
    method Allow(name: nat, id: nat, limit: int, window: int, now: int) returns (ok: bool)
      modifies this
      ensures id == 0 || limit <= 0 ==> ok && counters == old(counters)
      ensures id != 0 && limit > 0 ==>
                var c := Hit(Get(old(counters), (name, id)), window, now);
                counters == old(counters)[(name, id) := c] && ok == (c.hits <= limit)
    {
      if id == 0 || limit <= 0 {
        return true;
      }
      var key := (name, id);
      if key in counters && counters[key].expires <= now {
        counters := counters - {key};
      }
      if key in counters {
        counters := counters[key := counters[key].(hits := counters[key].hits + 1)];
      } else {
        counters := counters[key := Counter(1, now + window)];
      }
      ok := counters[key].hits <= limit;
    }
  }

  // ---------------------------------------------------------------- traces of one key

  function After(c: Option<Counter>, window: int, times: seq<int>): Option<Counter> {
    if times == [] then c else Some(Hit(After(c, window, times[..|times| - 1]), window, times[|times| - 1]))
  }

  /** How many of the calls at `times` are allowed, starting from `c`. */
  function Allowed(c: Option<Counter>, limit: int, window: int, times: seq<int>): nat {
    if times == [] then 0
    else
      Allowed(c, limit, window, times[..|times| - 1]) + if After(c, window, times).value.hits <= limit then 1 else 0
  }

  ghost predicate Forward(times: seq<int>) { forall i, j :: 0 <= i <= j < |times| ==> times[i] <= times[j] }

  function Least(a: int, b: int): int { if a < b then a else b }

  /**
   In a span that begins at `a`: still in the window open then, or already in the next one, which outlives the
   span.
   */
  ghost predicate InSpan(c: Counter, allowed: nat, limit: int, window: int, a: int) {
    || (a < c.expires <= a + window && allowed <= Least(c.hits, limit))
    || (a + window < c.expires && allowed <= limit + Least(c.hits, limit))
  }

  lemma {:induction false} SpanInvariant(c: Option<Counter>, limit: int, window: int, times: seq<int>)
    requires limit > 0 && window > 0 && times != [] && Forward(times)
    requires c.Some? ==> c.value.expires <= times[0] + window
    requires times[|times| - 1] - times[0] <= window
    ensures InSpan(After(c, window, times).value, Allowed(c, limit, window, times), limit, window, times[0])
  {
    var n := |times| - 1;
    if n == 0 {
      assert times[..0] == [];
    } else {
      SpanInvariant(c, limit, window, times[..n]);
    }
  }

  lemma {:induction false} ExpiresSoon(window: int, times: seq<int>)
    requires window > 0 && Forward(times) && times != []
    ensures After(None, window, times).value.expires <= times[|times| - 1] + window
  {
    var n := |times| - 1;
    if n > 0 {
      ExpiresSoon(window, times[..n]);
    } else {
      assert times[..0] == [];
    }
  }

  /** In any trace of a key, any stretch of calls that spans at most one window has at most twice the limit allowed. */
  lemma AtMostTwiceTheLimit(limit: int, window: int, before: seq<int>, span: seq<int>)
    requires limit > 0 && window > 0 && Forward(before + span) && span != []
    requires span[|span| - 1] - span[0] <= window
    ensures Allowed(After(None, window, before), limit, window, span) <= 2 * limit
  {
    if before != [] {
      assert forall i :: 0 <= i < |before| ==> (before + span)[i] == before[i];
      assert (before + span)[|before|] == span[0];
      ExpiresSoon(window, before);
    }
    assert forall i :: 0 <= i < |span| ==> (before + span)[|before| + i] == span[i];
    SpanInvariant(After(None, window, before), limit, window, span);
  }

  // ---------------------------------------------------------------- the bound is reached

  function Burst(t: int, n: nat): seq<int> { seq(n, _ => t) }

  lemma {:induction false} BurstAllowed(c: Option<Counter>, limit: int, window: int, before: seq<int>, t: int, n: nat)
    requires window > 0 && 0 < n <= limit
    requires After(c, window, before).Some? ==> After(c, window, before).value.expires <= t
    ensures After(c, window, before + Burst(t, n)) == Some(Counter(n, t + window))
    ensures Allowed(c, limit, window, before + Burst(t, n)) == Allowed(c, limit, window, before) + n
  {
    var times := before + Burst(t, n);
    assert times[..|times| - 1] == before + Burst(t, n - 1);
    if n > 1 {
      BurstAllowed(c, limit, window, before, t, n - 1);
    } else {
      assert before + Burst(t, 0) == before;
    }
  }

  /** The factor of two cannot be improved: a burst as a window opens and another as the next one does. */
  lemma TwiceTheLimitHappens(limit: int, window: int)
    requires limit > 0 && window > 0
    ensures var span := Burst(0, limit) + Burst(window, limit);
            && Forward(span) && span[|span| - 1] - span[0] <= window
            && Allowed(None, limit, window, span) == 2 * limit
  {
    assert [] + Burst(0, limit) == Burst(0, limit);
    BurstAllowed(None, limit, window, [], 0, limit);
    BurstAllowed(None, limit, window, Burst(0, limit), window, limit);
  }

  // ---------------------------------------------------------------- what is refused

  /** The counter holds the calls since its window opened, the last ones of the trace. */
  lemma {:induction false} CounterHoldsTheWindow(window: int, times: seq<int>)
    requires window > 0 && times != [] && Forward(times)
    ensures var c, n := After(None, window, times).value, |times|;
            1 <= c.hits <= n && c.expires == times[n - c.hits] + window && times[n - 1] < c.expires
            && (c.hits < n ==> times[n - c.hits - 1] < times[n - c.hits])
  {
    var n := |times| - 1;
    if n > 0 {
      CounterHoldsTheWindow(window, times[..n]);
    } else {
      assert times[..0] == [];
    }
  }

  /** A call is refused only if the full limit of calls came before it within one window's length. */
  lemma RefusedOnlyBehindAFullWindow(limit: int, window: int, times: seq<int>)
    requires limit > 0 && window > 0 && times != [] && Forward(times)
    requires After(None, window, times).value.hits > limit
    ensures |times| > limit && times[|times| - 1] - times[|times| - 1 - limit] < window
  {
    CounterHoldsTheWindow(window, times);
    var h, n := After(None, window, times).value.hits, |times|;
    assert times[n - h] <= times[n - 1 - limit];
  }
}
