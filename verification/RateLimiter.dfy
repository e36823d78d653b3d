/** The per-IP token-bucket limiter (middleware/ratelimit.go). Times are seconds
    and, like tokens, real numbers: rounding of float64 is not modelled. */
module RateLimiter {
  import opened Base

  const MAX_BUCKETS := 50000
  const CROWDED_AGE := 60.0     // age limit used when the map is full
  const IDLE_AGE := 300.0       // age limit of the background eviction

  datatype Bucket = Bucket(tokens: real, maxTokens: real, refillRate: real, lastRefill: real)
  type Buckets = map<string, Bucket>

  // ── One bucket ─────────────────────────────────────────────────────────────

  function NewBucket(rps: real, burst: nat, now: real): Bucket {
    Bucket(burst as real - 1.0, burst as real, rps, now)
  }

  function Refilled(b: Bucket, now: real): real {
    var tokens := b.tokens + (now - b.lastRefill) * b.refillRate;
    if tokens > b.maxTokens then b.maxTokens else tokens
  }

  predicate Admits(b: Bucket, now: real) {
    Refilled(b, now) >= 1.0
  }

  function Touched(b: Bucket, now: real): Bucket {
    b.(tokens := Refilled(b, now) - if Admits(b, now) then 1.0 else 0.0, lastRefill := now)
  }

  // ── The map ────────────────────────────────────────────────────────────────

  function EvictStale(m: Buckets, now: real, maxAge: real): Buckets {
    map ip | ip in m && now - m[ip].lastRefill <= maxAge :: m[ip]
  }

  ghost predicate Within(part: Buckets, m: Buckets) {
    part.Keys <= m.Keys && forall ip :: ip in part ==> part[ip] == m[ip]
  }

  // What the capacity loop leaves of a map without the empty key: room for one
  // more, having dropped only buckets no younger than any it kept.
  ghost predicate OldestDropped(m: Buckets, kept: Buckets) {
    && Within(kept, m)
    && (forall x, y :: x in m && x !in kept && y in kept ==> m[x].lastRefill <= m[y].lastRefill)
    && (|m| < MAX_BUCKETS ==> kept == m)
    && (|m| >= MAX_BUCKETS ==> |kept| == MAX_BUCKETS - 1)
  }

  ghost predicate Crowded(m: Buckets) {
    |m| >= MAX_BUCKETS
  }

  // One call of allow on a map without the empty key.
  ghost predicate AllowStep(m: Buckets, ip: string, rps: real, burst: nat, now: real, m': Buckets, ok: bool) {
    if ip in m then
      m' == m[ip := Touched(m[ip], now)] && ok == Admits(m[ip], now)
    else
      && ok && ip in m' && m'[ip] == NewBucket(rps, burst, now)
      && (!Crowded(m) ==> m' == m[ip := m'[ip]])
      && (Crowded(m) ==> OldestDropped(EvictStale(m, now, CROWDED_AGE), m' - {ip}))
  }

  lemma InsertOne(m: Buckets, ip: string, b: Bucket)
    ensures |m[ip := b]| == |m| + if ip in m then 0 else 1
    ensures ip !in m ==> m[ip := b] - {ip} == m
  {
    var m' := m[ip := b];
    assert m'.Keys == m.Keys + {ip};
    if ip in m {
      assert m'.Keys == m.Keys;
    }
    assert |m'.Keys| == |m'| && |m.Keys| == |m|;
  }

  class Limiter {
    var buckets: Buckets

    constructor ()
      ensures buckets == map[]
    {
      buckets := map[];
    }

    method EvictStaleLocked(now: real, maxAge: real)
      modifies this
      ensures buckets == EvictStale(old(buckets), now, maxAge)
      ensures forall ip :: ip in buckets <==> ip in old(buckets) && old(buckets)[ip].lastRefill >= now - maxAge
    {
      var todo := buckets.Keys;
      while todo != {}
        invariant todo <= buckets.Keys && Within(buckets, old(buckets))
        invariant forall ip :: ip in old(buckets) && ip !in todo ==>
                    (ip in buckets <==> now - old(buckets)[ip].lastRefill <= maxAge)
        invariant forall ip :: ip in todo ==> ip in buckets
        decreases todo
      {
        var ip := Pick(todo);
        if now - buckets[ip].lastRefill > maxAge {
          buckets := buckets - {ip};
        }
        todo := todo - {ip};
      }
    }

    /** The inner scan: a least recently refilled key, where "" means none seen. */
    method Oldest() returns (oldestIP: string)
      ensures oldestIP == "" || oldestIP in buckets
      ensures "" !in buckets && buckets != map[] ==>
                && oldestIP in buckets
                && forall k :: k in buckets ==> buckets[oldestIP].lastRefill <= buckets[k].lastRefill
    {
      oldestIP := "";
      var oldest := 0.0;
      var m := buckets;
      var todo := m.Keys;
      while todo != {}
        invariant todo <= m.Keys
        invariant oldestIP == "" || (oldestIP in m && oldest == m[oldestIP].lastRefill)
        invariant "" !in m && oldestIP == "" ==> todo == m.Keys
        invariant "" !in m ==> forall k :: k in m && k !in todo ==> oldest <= m[k].lastRefill
        decreases todo
      {
        var k := Pick(todo);
        if oldestIP == "" || m[k].lastRefill < oldest {
          oldestIP, oldest := k, m[k].lastRefill;
        }
        todo := todo - {k};
      }
      assert buckets == m;
      if "" !in m && m != map[] {
        assert m.Keys != {};
      }
    }

    // The drop-oldest loop: the map shrinks on every turn.
    method DropOldest()
      modifies this
      ensures Within(buckets, old(buckets))
      ensures "" !in old(buckets) ==> OldestDropped(old(buckets), buckets)
    {
      while |buckets| >= MAX_BUCKETS
        invariant Within(buckets, old(buckets))
        invariant "" !in old(buckets) ==>
                    forall x, y :: x in old(buckets) && x !in buckets && y in buckets ==>
                      old(buckets)[x].lastRefill <= old(buckets)[y].lastRefill
        invariant |old(buckets)| < MAX_BUCKETS ==> buckets == old(buckets)
        invariant |old(buckets)| >= MAX_BUCKETS ==> |buckets| >= MAX_BUCKETS - 1
        decreases |buckets|
      {
        var oldestIP := Oldest();
        if oldestIP == "" {
          assert "" in buckets by {
            assert buckets != map[];
          }
          break;
        }
        ghost var before := buckets;
        buckets := buckets - {oldestIP};
        assert before.Keys == buckets.Keys + {oldestIP};
        assert |buckets.Keys| == |before.Keys| - 1;
      }
    }

    /** allow. Without the empty key the map never grows past the cap. */
    method Allow(ip: string, rps: real, burst: nat, now: real) returns (ok: bool)
      modifies this
      ensures "" !in old(buckets) && ip != "" ==> AllowStep(old(buckets), ip, rps, burst, now, buckets, ok)
      ensures "" !in old(buckets) && ip != "" && |old(buckets)| <= MAX_BUCKETS ==>
                "" !in buckets && |buckets| <= MAX_BUCKETS
      ensures ip in old(buckets) ==> |buckets| == |old(buckets)|
    {
      if ip !in buckets {
        if |buckets| >= MAX_BUCKETS {
          EvictStaleLocked(now, CROWDED_AGE);
          DropOldest();
        }
        InsertOne(buckets, ip, NewBucket(rps, burst, now));
        buckets := buckets[ip := NewBucket(rps, burst, now)];
        return true;
      }
      ok := Admits(buckets[ip], now);
      InsertOne(buckets, ip, Touched(buckets[ip], now));
      buckets := buckets[ip := Touched(buckets[ip], now)];
    }
  }
}
