/** The three limiters as they run. Each call is proved to answer and to leave the table as RateLimit says, so its
    theorems over runs hold of them. */
module Limiters {
  import opened RateLimit

  /** The filtering loop all strict limiters share: keep what is after the cutoff. */
  method Filter(requests: Times, cutoff: int) returns (valid: Times)
    ensures valid == Since(requests, cutoff + 1)
  {
    valid := [];
    for i := 0 to |requests|
      invariant valid == Since(requests[..i], cutoff + 1)
    {
      assert requests[..i + 1] == requests[..i] + [requests[i]];
      SinceAppend(requests[..i], requests[i], cutoff + 1);
      if requests[i] > cutoff {
        valid := valid + [requests[i]];
      }
    }
    assert requests[..|requests|] == requests;
  }

  /** The table while a cleanup loop still has the keys in `left` before it. */
  function Partly(t: Table, left: set<string>, from: int): Table {
    map k | k in t && (k in left || Since(t[k], from) != []) :: if k in left then t[k] else Since(t[k], from)
  }

  lemma PartlyNext(t: Table, left: set<string>, key: string, from: int)
    requires key in left && key in t
    ensures Since(t[key], from) == [] ==> Partly(t, left - {key}, from) == Partly(t, left, from) - {key}
    ensures Since(t[key], from) != [] ==>
              Partly(t, left - {key}, from) == Partly(t, left, from)[key := Since(t[key], from)]
  {
    hide Since;
  }

  /** The cleanup loops of RateLimiter and apiKeyRateLimiter. */
  method Prune(requests: Table, cutoff: int) returns (t: Table)
    ensures t == CleanTable(requests, cutoff + 1)
  {
    hide Since;
    t := requests;
    var keys := requests.Keys;
    while keys != {}
      invariant keys <= requests.Keys && t == Partly(requests, keys, cutoff + 1)
      decreases |keys|
    {
      var key :| key in keys;
      var valid := Filter(t[key], cutoff);
      PartlyNext(requests, keys, key, cutoff + 1);
      if |valid| == 0 {
        t := t - {key};
      } else {
        t := t[key := valid];
      }
      keys := keys - {key};
    }
  }

  /** The same for the order limiter's sweep. */
  function PartlySwept(t: Table, left: set<string>): Table {
    map k | k in t && (k in left || t[k] != []) :: t[k]
  }

  class RateLimiter {
    var requests: Table
    const limit: int
    const window: int

    /** The cleanup ticker needs a positive window. */
    constructor (limit: int, window: int)
      requires window > 0
      ensures requests == map[] && this.limit == limit && this.window == window
    {
      this.requests, this.limit, this.window := map[], limit, window;
    }

    method Allow(key: string, now: int) returns (ok: bool)
      modifies this`requests
      ensures ok <==> Admits(old(requests), Rule(limit, window - 1), key, now)
      ensures requests == AllowTable(old(requests), Rule(limit, window - 1), key, now)
    {
      var cutoff := now - window;
      var mine := if key in requests then requests[key] else [];
      var valid := Filter(mine, cutoff);
      if |valid| >= limit {
        requests := requests[key := valid];
        return false;
      }
      valid := valid + [now];
      requests := requests[key := valid];
      return true;
    }

    method Reset(key: string)
      modifies this`requests
      ensures requests == TableNext(old(requests), Rule(limit, window - 1), RateLimit.Reset(key))
    {
      requests := requests - {key};
    }

    method Cleanup(now: int)
      modifies this`requests
      ensures requests == TableNext(old(requests), Rule(limit, window - 1), RateLimit.Cleanup(now))
    {
      requests := Prune(requests, now - window);
    }
  }

  /** Panicked is valid[0] on an empty list. */
  datatype Verdict = Allowed | Limited(retryAfter: int) | Panicked

  class ApiKeyRateLimiter {
    var requests: Table
    const limit: int
    const window: int

    constructor (limit: int, window: int)
      requires window > 0
      ensures requests == map[] && this.limit == limit && this.window == window
    {
      this.requests, this.limit, this.window := map[], limit, window;
    }

    method Allow(key: string, now: int) returns (v: Verdict)
      modifies this`requests
      ensures v.Allowed? <==> Admits(old(requests), Rule(limit, window - 1), key, now)
      ensures v.Panicked? <==> limit <= 0 && Since(Get(old(requests), key), now - (window - 1)) == []
      ensures v.Limited? ==>
                Since(Get(old(requests), key), now - (window - 1)) != [] &&
                v.retryAfter == Oldest(old(requests), Rule(limit, window - 1), key, now) + window - now
      ensures requests == AllowTable(old(requests), Rule(limit, window - 1), key, now)
    {
      var cutoff := now - window;
      var mine := if key in requests then requests[key] else [];
      var valid := Filter(mine, cutoff);
      if |valid| >= limit {
        requests := requests[key := valid];
        if |valid| == 0 { return Panicked; }
        return Limited(valid[0] + window - now);
      }
      valid := valid + [now];
      requests := requests[key := valid];
      return Allowed;
    }

    method Cleanup(now: int)
      modifies this`requests
      ensures requests == TableNext(old(requests), Rule(limit, window - 1), RateLimit.Cleanup(now))
    {
      requests := Prune(requests, now - window);
    }
  }

  lemma StaysOrdered(s: Times, now: int)
    requires Ordered(s, now)
    ensures Ordered(s + [now], now)
  {
  }

  /** The one order limiter there is: 20 orders a minute. */
  class OrderRateLimiter {
    var hits: Table
    const limit: nat := 20
    const window: nat := 60 * SECOND

    constructor ()
      ensures hits == map[]
    {
      hits := map[];
    }

    /** Trimming from the front is right because a user's hits are in order. */
    method Allow(user: string, now: int) returns (ok: bool, retry: int)
      requires Ordered(Get(hits, user), now)
      modifies this`hits
      ensures ok <==> Admits(old(hits), Rule(limit, window), user, now)
      ensures hits == AllowTable(old(hits), Rule(limit, window), user, now)
      ensures Ordered(Get(hits, user), now)
      ensures !ok ==> Since(Get(old(hits), user), now - window) != [] &&
                      retry == Max(Oldest(old(hits), Rule(limit, window), user, now) + window - now, SECOND)
      ensures ok ==> retry == 0
    {
      var cutoff := now - window;
      var mine := if user in hits then hits[user] else [];
      var i := 0;
      while i < |mine| && mine[i] < cutoff
        invariant i <= |mine| && forall j :: 0 <= j < i ==> mine[j] < cutoff
      {
        i := i + 1;
      }
      SinceIsSuffix(mine, now, i, cutoff);
      SinceOrdered(mine, now, cutoff);
      mine := mine[i..];
      StaysOrdered(mine, now);
      hide Since, Ordered;
      if |mine| >= limit {
        retry := mine[0] + window - now;
        if retry < SECOND {
          retry := SECOND;
        }
        hits := hits[user := mine];
        return false, retry;
      }
      mine := mine + [now];
      hits := hits[user := mine];
      return true, 0;
    }

    method Sweep()
      modifies this`hits
      ensures hits == TableNext(old(hits), Rule(limit, window), RateLimit.Sweep)
    {
      var keys := hits.Keys;
      ghost var before := hits;
      while keys != {}
        invariant keys <= before.Keys && hits == PartlySwept(before, keys)
        decreases |keys|
      {
        var k :| k in keys;
        if |hits[k]| == 0 {
          hits := hits - {k};
        }
        keys := keys - {k};
        assert hits == PartlySwept(before, keys);
      }
    }
  }
}
