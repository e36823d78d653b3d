/** The limiter against a reference that is never evicted, and that reference
    against the rate it promises.

    The reference works on credit: the credit of a moment t is rps * t, so that
    a bucket earns exactly the credit that passes. */
module RateBound {
  import opened Base
  import opened RateLimiter

  ghost predicate Ordered(ts: seq<real>) {
    forall i, j :: 0 <= i <= j < |ts| ==> ts[i] <= ts[j]
  }

  function Credit(rps: real, t: real): real {
    rps * t
  }

  function Credits(ts: seq<real>, rps: real): seq<real> {
    seq(|ts|, i requires 0 <= i < |ts| => Credit(rps, ts[i]))
  }

  lemma CreditGrows(rps: real, t: real, t': real)
    requires t <= t' && rps >= 0.0
    ensures Credit(rps, t) <= Credit(rps, t')
  {
    assert rps * (t' - t) >= 0.0;
  }

  lemma CreditOfSpan(rps: real, t: real, t': real)
    ensures Credit(rps, t' - t) == Credit(rps, t') - Credit(rps, t) == (t' - t) * rps == rps * (t' - t)
  {
  }

  lemma CreditsOrdered(ts: seq<real>, rps: real)
    requires Ordered(ts) && rps >= 0.0
    ensures Ordered(Credits(ts, rps))
  {
    hide Credit;
    var cs := Credits(ts, rps);
    forall i, j | 0 <= i <= j < |ts|
      ensures cs[i] <= cs[j]
    {
      CreditGrows(rps, ts[i], ts[j]);
    }
  }

  lemma CreditsSnoc(ts: seq<real>, t: real, rps: real)
    ensures Credits(ts + [t], rps) == Credits(ts, rps) + [Credit(rps, t)]
  {
    hide Credit;
    var longer := Credits(ts + [t], rps);
    forall i | 0 <= i < |longer|
      ensures longer[i] == (Credits(ts, rps) + [Credit(rps, t)])[i]
    {
      assert (ts + [t])[i] == if i < |ts| then ts[i] else t;
    }
  }

  // The credit between two moments of a window is at most the window's own.
  lemma WindowCredit(rps: real, from: real, t: real, t': real, to: real)
    requires from <= t <= t' <= to && rps >= 0.0
    ensures 0.0 <= Credit(rps, t') - Credit(rps, t) <= Credit(rps, to - from)
  {
    hide Credit;
    CreditGrows(rps, from, t);
    CreditGrows(rps, t, t');
    CreditGrows(rps, t', to);
    CreditOfSpan(rps, from, to);
  }

  // ── The reference: one client, the credit at its requests, no eviction ─────

  function Capped(level: real, burst: nat): real {
    if level > burst as real then burst as real else level
  }

  // Tokens left after k requests; none are spent while less than one is left.
  function Level(cs: seq<real>, k: nat, burst: nat): real
    requires 1 <= k <= |cs|
    decreases k, 0
  {
    if k == 1 then burst as real - 1.0
    else Before(cs, k - 1, burst) - if Before(cs, k - 1, burst) >= 1.0 then 1.0 else 0.0
  }

  // Tokens found by request k.
  function Before(cs: seq<real>, k: nat, burst: nat): real
    requires k < |cs|
    decreases k, 1
  {
    if k == 0 then burst as real else Capped(Level(cs, k, burst) + (cs[k] - cs[k - 1]), burst)
  }

  predicate Admitted(cs: seq<real>, k: nat, burst: nat)
    requires k < |cs|
  {
    k == 0 || Before(cs, k, burst) >= 1.0
  }

  // How many of the requests j..k-1 are admitted.
  function Count(cs: seq<real>, j: nat, k: nat, burst: nat): nat
    requires j <= k <= |cs|
  {
    if j == k then 0
    else Count(cs, j, k - 1, burst) + if Admitted(cs, k - 1, burst) then 1 else 0
  }

  lemma {:induction false} TokensInRange(cs: seq<real>, k: nat, burst: nat)
    requires 1 <= k <= |cs| && Ordered(cs) && burst >= 1
    ensures 0.0 <= Level(cs, k, burst) <= burst as real
    ensures k < |cs| ==> 0.0 <= Before(cs, k, burst) <= burst as real
  {
    if k > 1 {
      TokensInRange(cs, k - 1, burst);
    }
  }

  // Potential: what was admitted since request j, plus what is left, is paid for.
  lemma {:induction false} Potential(cs: seq<real>, j: nat, k: nat, burst: nat)
    requires j <= k < |cs| && Ordered(cs) && burst >= 1
    ensures Count(cs, j, k + 1, burst) as real + Level(cs, k + 1, burst) <= burst as real + (cs[k] - cs[j])
  {
    if k > 0 {
      TokensInRange(cs, k, burst);
    }
    if j < k {
      Potential(cs, j, k - 1, burst);
    } else {
      assert Count(cs, j, k, burst) == 0;
    }
  }

  // Since the last time the bucket was full, every token is accounted for.
  lemma {:induction false} FullSince(cs: seq<real>, k: nat, burst: nat) returns (j: nat)
    requires k < |cs| && Ordered(cs) && burst >= 1
    ensures j <= k
    ensures Count(cs, j, k + 1, burst) as real + Level(cs, k + 1, burst) == burst as real + (cs[k] - cs[j])
  {
    j := k;
    assert Count(cs, k, k, burst) == 0;
    if k > 0 && Before(cs, k, burst) < burst as real {
      j := FullSince(cs, k - 1, burst);
    }
  }

  /** A request is admitted exactly when, over every window ending with it, the
      admissions stay within burst plus the credit of the window. */
  lemma AdmittedIffWithinRate(cs: seq<real>, k: nat, burst: nat)
    requires k < |cs| && Ordered(cs) && burst >= 1
    ensures Admitted(cs, k, burst) <==>
            forall j :: 0 <= j <= k ==> Count(cs, j, k, burst) as real + 1.0 <= burst as real + (cs[k] - cs[j])
  {
    TokensInRange(cs, k + 1, burst);
    if Admitted(cs, k, burst) {
      forall j | 0 <= j <= k
        ensures Count(cs, j, k, burst) as real + 1.0 <= burst as real + (cs[k] - cs[j])
      {
        Potential(cs, j, k, burst);
      }
    } else {
      var j := FullSince(cs, k, burst);
      assert Count(cs, j, k, burst) == Count(cs, j, k + 1, burst);
    }
  }

  // ── Runs of the whole limiter ──────────────────────────────────────────────

  datatype Op = Request(ip: string, now: real) | Evict(now: real, maxAge: real)

  ghost predicate LimiterRun(ms: seq<Buckets>, ops: seq<Op>, oks: seq<bool>, rps: real, burst: nat) {
    && |ms| == |ops| + 1 && |oks| == |ops| && ms[0] == map[]
    && (forall i, j :: 0 <= i <= j < |ops| ==> ops[i].now <= ops[j].now)
    && (forall i :: 0 <= i < |ops| ==> OpStep(ms[i], ops[i], ms[i + 1], oks[i], rps, burst))
  }

  ghost predicate OpStep(m: Buckets, op: Op, m': Buckets, ok: bool, rps: real, burst: nat) {
    match op
    case Request(ip, now) => ip != "" && AllowStep(m, ip, rps, burst, now, m', ok)
    case Evict(now, maxAge) => m' == EvictStale(m, now, maxAge)
  }

  function AgeLimit(op: Op): real {
    match op
    case Request(_, _) => CROWDED_AGE
    case Evict(_, maxAge) => maxAge
  }

  // A bucket older than the age limit has had time to fill up.
  ghost predicate AgeSuffices(op: Op, rps: real, burst: nat) {
    Credit(rps, AgeLimit(op)) >= burst as real
  }

  /** Both limiters of the source satisfy it, under both age limits. */
  lemma SourceAgesSuffice(op: Op)
    requires op.Evict? ==> op.maxAge == IDLE_AGE
    ensures AgeSuffices(op, 1.0, 5) && AgeSuffices(op, 30.0, 60)
  {
  }

  // The step forgets ip's bucket only because it had gone stale, never to make room.
  ghost predicate NotCrowdedOut(m: Buckets, op: Op, m': Buckets, ip: string) {
    ip in m && ip !in m' ==> op.now - m[ip].lastRefill > AgeLimit(op)
  }

  // Everything the theorems below ask of a run and of one client in it.
  ghost predicate FairRun(ms: seq<Buckets>, ops: seq<Op>, oks: seq<bool>, ip: string, rps: real, burst: nat) {
    && LimiterRun(ms, ops, oks, rps, burst) && rps >= 0.0 && burst >= 1
    && (forall i :: 0 <= i < |ops| ==> AgeSuffices(ops[i], rps, burst))
    && (forall i :: 0 <= i < |ops| ==> NotCrowdedOut(ms[i], ops[i], ms[i + 1], ip))
  }

  // The request times of one client among the first n operations.
  function TimesOf(ops: seq<Op>, n: nat, ip: string): seq<real>
    requires n <= |ops|
  {
    if n == 0 then []
    else if ops[n - 1].Request? && ops[n - 1].ip == ip then TimesOf(ops, n - 1, ip) + [ops[n - 1].now]
    else TimesOf(ops, n - 1, ip)
  }

  lemma {:induction false} TimesOrdered(ops: seq<Op>, n: nat, ip: string)
    requires n <= |ops| && forall i, j :: 0 <= i <= j < |ops| ==> ops[i].now <= ops[j].now
    ensures Ordered(TimesOf(ops, n, ip))
    ensures n > 0 ==> forall i :: 0 <= i < |TimesOf(ops, n, ip)| ==> TimesOf(ops, n, ip)[i] <= ops[n - 1].now
  {
    if n > 0 {
      TimesOrdered(ops, n - 1, ip);
    }
  }

  // ── The map against a bucket that is never evicted ─────────────────────────

  // The bucket of a client whose requests came at ts, if nothing forgets it.
  function Kept(ts: seq<real>, rps: real, burst: nat): Option<Bucket> {
    if ts == [] then None
    else match Kept(ts[..|ts| - 1], rps, burst)
      case None => Some(NewBucket(rps, burst, ts[|ts| - 1]))
      case Some(b) => Some(Touched(b, ts[|ts| - 1]))
  }

  // Its answer to one more request.
  predicate Answer(kept: Option<Bucket>, now: real) {
    kept.None? || Admits(kept.value, now)
  }

  function Next(kept: Option<Bucket>, now: real, rps: real, burst: nat): Bucket {
    if kept.None? then NewBucket(rps, burst, now) else Touched(kept.value, now)
  }

  lemma KeptSnoc(ts: seq<real>, now: real, rps: real, burst: nat)
    ensures Kept(ts + [now], rps, burst) == Some(Next(Kept(ts, rps, burst), now, rps, burst))
  {
    assert (ts + [now])[..|ts|] == ts;
  }

  ghost predicate Sound(b: Bucket, clock: real, rps: real, burst: nat) {
    0.0 <= b.tokens <= burst as real && b.maxTokens == burst as real && b.refillRate == rps && b.lastRefill <= clock
  }

  // What a bucket holds at time t if nothing caps it.
  function Filled(b: Bucket, t: real, rps: real): real {
    b.tokens + (Credit(rps, t) - Credit(rps, b.lastRefill))
  }

  lemma RefillIsCredit(b: Bucket, t: real, rps: real)
    requires b.refillRate == rps
    ensures Refilled(b, t) == var f := Filled(b, t, rps); if f > b.maxTokens then b.maxTokens else f
  {
    CreditOfSpan(rps, b.lastRefill, t);
  }

  lemma FilledGrows(b: Bucket, t: real, t': real, rps: real)
    requires t <= t' && rps >= 0.0
    ensures Filled(b, t, rps) <= Filled(b, t', rps)
    ensures b.lastRefill <= t ==> b.tokens <= Filled(b, t, rps)
  {
    hide Credit;
    CreditGrows(rps, t, t');
    if b.lastRefill <= t {
      CreditGrows(rps, b.lastRefill, t);
    }
  }

  lemma TouchedIsSound(b: Bucket, now: real, rps: real, burst: nat)
    requires Sound(b, now, rps, burst) && rps >= 0.0
    ensures Sound(Touched(b, now), now, rps, burst)
  {
    hide Credit;
    RefillIsCredit(b, now, rps);
    FilledGrows(b, now, now, rps);
  }

  // Same bucket, or forgotten once full.
  ghost predicate Agrees(m: Buckets, kept: Option<Bucket>, clock: real, ip: string, rps: real, burst: nat) {
    && (ip in m ==> kept == Some(m[ip]))
    && (kept.Some? ==> Sound(kept.value, clock, rps, burst))
    && (kept.Some? && ip !in m ==> Filled(kept.value, clock, rps) >= burst as real)
  }

  lemma FullIsNew(b: Bucket, now: real, rps: real, burst: nat)
    requires Sound(b, now, rps, burst) && burst >= 1 && Filled(b, now, rps) >= burst as real
    ensures Touched(b, now) == NewBucket(rps, burst, now) && Admits(b, now)
  {
    hide Credit;
    RefillIsCredit(b, now, rps);
  }

  lemma AgreeOnOwn(m: Buckets, kept: Option<Bucket>, clock: real, now: real, m': Buckets, ok: bool, ip: string,
                   rps: real, burst: nat)
    requires rps >= 0.0 && burst >= 1 && clock <= now
    requires Agrees(m, kept, clock, ip, rps, burst) && AllowStep(m, ip, rps, burst, now, m', ok)
    ensures Agrees(m', Some(Next(kept, now, rps, burst)), now, ip, rps, burst)
    ensures ok == Answer(kept, now)
  {
    hide Credit;
    if kept.Some? {
      TouchedIsSound(kept.value, now, rps, burst);
      if ip !in m {
        FilledGrows(kept.value, clock, now, rps);
        FullIsNew(kept.value, now, rps, burst);
      }
    }
  }

  lemma OthersKeepBucket(m: Buckets, op: Op, m': Buckets, ok: bool, ip: string, rps: real, burst: nat)
    requires !(op.Request? && op.ip == ip) && OpStep(m, op, m', ok, rps, burst)
    ensures ip in m' ==> ip in m && m'[ip] == m[ip]
  {
    if ip in m' && op.Request? {
      assert m'[ip] == (m' - {op.ip})[ip];
    }
  }

  lemma StaleIsFull(b: Bucket, now: real, age: real, rps: real, burst: nat)
    requires b.tokens >= 0.0 && rps >= 0.0 && now - b.lastRefill > age && Credit(rps, age) >= burst as real
    ensures Filled(b, now, rps) >= burst as real
  {
    hide Credit;
    CreditGrows(rps, age, now - b.lastRefill);
    CreditOfSpan(rps, b.lastRefill, now);
  }

  lemma AgreeOnOther(m: Buckets, kept: Option<Bucket>, clock: real, op: Op, m': Buckets, ok: bool, ip: string,
                     rps: real, burst: nat)
    requires AgeSuffices(op, rps, burst) && clock <= op.now && rps >= 0.0
    requires !(op.Request? && op.ip == ip) && NotCrowdedOut(m, op, m', ip)
    requires Agrees(m, kept, clock, ip, rps, burst) && OpStep(m, op, m', ok, rps, burst)
    ensures Agrees(m', kept, op.now, ip, rps, burst)
  {
    hide Credit;
    OthersKeepBucket(m, op, m', ok, ip, rps, burst);
    if kept.Some? && ip !in m' {
      if ip in m {
        StaleIsFull(kept.value, op.now, AgeLimit(op), rps, burst);
      } else {
        FilledGrows(kept.value, clock, op.now, rps);
      }
    }
  }

  function Clock(ops: seq<Op>, n: nat): real
    requires n <= |ops| && ops != []
  {
    ops[if n == 0 then 0 else n - 1].now
  }

  lemma {:induction false} AgreesThroughout(ms: seq<Buckets>, ops: seq<Op>, oks: seq<bool>, n: nat, ip: string,
                                            rps: real, burst: nat)
    requires FairRun(ms, ops, oks, ip, rps, burst) && n < |ops|
    ensures Agrees(ms[n], Kept(TimesOf(ops, n, ip), rps, burst), Clock(ops, n), ip, rps, burst)
  {
    hide Credit;
    if n > 0 {
      AgreesThroughout(ms, ops, oks, n - 1, ip, rps, burst);
      var ts, op, clock := TimesOf(ops, n - 1, ip), ops[n - 1], Clock(ops, n - 1);
      assert OpStep(ms[n - 1], op, ms[n], oks[n - 1], rps, burst);
      if op.Request? && op.ip == ip {
        AgreeOnOwn(ms[n - 1], Kept(ts, rps, burst), clock, op.now, ms[n], oks[n - 1], ip, rps, burst);
        KeptSnoc(ts, op.now, rps, burst);
      } else {
        AgreeOnOther(ms[n - 1], Kept(ts, rps, burst), clock, op, ms[n], oks[n - 1], ip, rps, burst);
      }
    }
  }

  /** Stale eviction is invisible: whatever other clients do, an answer to a
      client never crowded out is the one its never-evicted bucket would give. */
  lemma EvictionIsInvisible(ms: seq<Buckets>, ops: seq<Op>, oks: seq<bool>, n: nat, ip: string, rps: real, burst: nat)
    requires FairRun(ms, ops, oks, ip, rps, burst)
    requires n < |ops| && ops[n].Request? && ops[n].ip == ip
    ensures oks[n] == Answer(Kept(TimesOf(ops, n, ip), rps, burst), ops[n].now)
  {
    hide Credit;
    AgreesThroughout(ms, ops, oks, n, ip, rps, burst);
    AgreeOnOwn(ms[n], Kept(TimesOf(ops, n, ip), rps, burst), Clock(ops, n), ops[n].now, ms[n + 1], oks[n], ip, rps,
               burst);
  }

  // ── Every bucket of every run ──────────────────────────────────────────────

  ghost predicate MapSound(m: Buckets, clock: real, rps: real, burst: nat) {
    |m| <= MAX_BUCKETS && forall ip :: ip in m ==> Sound(m[ip], clock, rps, burst)
  }

  lemma SmallerMap(part: Buckets, m: Buckets)
    requires part.Keys <= m.Keys
    ensures |part| <= |m|
  {
    assert m.Keys == part.Keys + (m.Keys - part.Keys);
    assert |part.Keys| == |part| && |m.Keys| == |m|;
  }

  lemma OneMore(kept: Buckets, m': Buckets, ip: string)
    requires ip in m' && kept == m' - {ip}
    ensures |m'| == |kept| + 1
  {
    assert m'.Keys == kept.Keys + {ip};
    assert |m'.Keys| == |kept.Keys| + 1;
  }

  lemma RequestKeepsSize(m: Buckets, ip: string, now: real, m': Buckets, ok: bool, rps: real, burst: nat)
    requires |m| <= MAX_BUCKETS && AllowStep(m, ip, rps, burst, now, m', ok)
    ensures |m'| <= MAX_BUCKETS
  {
    hide EvictStale, Touched, Admits, NewBucket;
    if ip in m {
      SmallerMap(m', m);
    } else {
      OneMore(m' - {ip}, m', ip);
      if !Crowded(m) {
        SmallerMap(m' - {ip}, m);
      }
    }
  }

  lemma RequestKeepsBuckets(m: Buckets, clock: real, ip: string, now: real, m': Buckets, ok: bool, rps: real,
                            burst: nat, k: string)
    requires rps >= 0.0 && burst >= 1 && clock <= now && MapSound(m, clock, rps, burst) && ip != ""
    requires AllowStep(m, ip, rps, burst, now, m', ok) && k in m'
    ensures Sound(m'[k], now, rps, burst)
  {
    hide Credit;
    if k == ip {
      if ip in m {
        TouchedIsSound(m[ip], now, rps, burst);
      }
    } else {
      OthersKeepBucket(m, Request(ip, now), m', ok, k, rps, burst);
    }
  }

  /** In every run, with no fairness asked: the map never exceeds its cap, and
      every bucket holds between nothing and burst. */
  lemma {:induction false} TokensStayInRange(ms: seq<Buckets>, ops: seq<Op>, oks: seq<bool>, n: nat, rps: real,
                                             burst: nat)
    requires LimiterRun(ms, ops, oks, rps, burst) && rps >= 0.0 && burst >= 1 && n <= |ops| && ops != []
    ensures MapSound(ms[n], Clock(ops, n), rps, burst)
  {
    hide Credit;
    if n > 0 {
      TokensStayInRange(ms, ops, oks, n - 1, rps, burst);
      var m, op, m', clock := ms[n - 1], ops[n - 1], ms[n], Clock(ops, n - 1);
      assert OpStep(m, op, m', oks[n - 1], rps, burst);
      match op
      case Request(ip, now) =>
        RequestKeepsSize(m, ip, now, m', oks[n - 1], rps, burst);
        forall k | k in m'
          ensures Sound(m'[k], now, rps, burst)
        {
          RequestKeepsBuckets(m, clock, ip, now, m', oks[n - 1], rps, burst, k);
        }
      case Evict(now, maxAge) => SmallerMap(m', m);
    }
  }

  // ── That bucket against the reference on credit ────────────────────────────

  lemma {:induction false} LevelPrefix(cs: seq<real>, c: real, k: nat, burst: nat)
    requires 1 <= k <= |cs|
    ensures Level(cs + [c], k, burst) == Level(cs, k, burst)
    ensures k < |cs| ==> Before(cs + [c], k, burst) == Before(cs, k, burst)
  {
    if k > 1 {
      LevelPrefix(cs, c, k - 1, burst);
    }
  }

  lemma LevelSnoc(cs: seq<real>, c: real, burst: nat)
    requires |cs| > 0
    ensures var found := Capped(Level(cs, |cs|, burst) + (c - cs[|cs| - 1]), burst);
            && Before(cs + [c], |cs|, burst) == found
            && Level(cs + [c], |cs| + 1, burst) == found - if found >= 1.0 then 1.0 else 0.0
  {
    LevelPrefix(cs, c, |cs|, burst);
  }

  // A bucket holding what the reference holds after the requests at cs.
  ghost predicate Mirrors(b: Bucket, cs: seq<real>, rps: real, burst: nat) {
    && |cs| > 0 && b.tokens == Level(cs, |cs|, burst) && cs[|cs| - 1] == Credit(rps, b.lastRefill)
    && b.maxTokens == burst as real && b.refillRate == rps
  }

  // A refill by the credit that passed moves a bucket as it moves the reference.
  lemma RefillByCredit(b: Bucket, now: real, cs: seq<real>, c: real, burst: nat)
    requires |cs| > 0 && b.tokens == Level(cs, |cs|, burst)
    requires Refilled(b, now) == Capped(b.tokens + (c - cs[|cs| - 1]), burst)
    ensures Touched(b, now).tokens == Level(cs + [c], |cs| + 1, burst)
    ensures Admits(b, now) == Admitted(cs + [c], |cs|, burst)
  {
    LevelSnoc(cs, c, burst);
  }

  lemma MirrorsNext(b: Bucket, cs: seq<real>, now: real, rps: real, burst: nat)
    requires Mirrors(b, cs, rps, burst)
    ensures Mirrors(Touched(b, now), cs + [Credit(rps, now)], rps, burst)
    ensures Admits(b, now) == Admitted(cs + [Credit(rps, now)], |cs|, burst)
  {
    hide Credit;
    RefillIsCredit(b, now, rps);
    RefillByCredit(b, now, cs, Credit(rps, now), burst);
  }

  lemma {:induction false} KeptMirrors(ts: seq<real>, rps: real, burst: nat)
    requires |ts| > 0
    ensures Kept(ts, rps, burst).Some? && Mirrors(Kept(ts, rps, burst).value, Credits(ts, rps), rps, burst)
  {
    hide Credit;
    var init, now := ts[..|ts| - 1], ts[|ts| - 1];
    assert ts == init + [now];
    CreditsSnoc(init, now, rps);
    if init != [] {
      KeptMirrors(init, rps, burst);
      MirrorsNext(Kept(init, rps, burst).value, Credits(init, rps), now, rps, burst);
    }
  }

  // The never-evicted bucket answers as the reference does.
  lemma AnswerIsReference(ts: seq<real>, now: real, rps: real, burst: nat)
    ensures Answer(Kept(ts, rps, burst), now) == Admitted(Credits(ts, rps) + [Credit(rps, now)], |ts|, burst)
  {
    hide Credit;
    if ts != [] {
      KeptMirrors(ts, rps, burst);
      MirrorsNext(Kept(ts, rps, burst).value, Credits(ts, rps), now, rps, burst);
    }
  }

  // Admissions of one client among operations a..b-1.
  function AdmittedOps(ops: seq<Op>, oks: seq<bool>, a: nat, b: nat, ip: string): nat
    requires a <= b <= |ops| == |oks|
  {
    if a == b then 0
    else AdmittedOps(ops, oks, a, b - 1, ip) +
         if ops[b - 1].Request? && ops[b - 1].ip == ip && oks[b - 1] then 1 else 0
  }

  lemma {:induction false} CountPrefix(cs: seq<real>, c: real, j: nat, k: nat, burst: nat)
    requires j <= k <= |cs|
    ensures Count(cs + [c], j, k, burst) == Count(cs, j, k, burst)
  {
    if j < k {
      CountPrefix(cs, c, j, k - 1, burst);
      LevelPrefix(cs, c, k, burst);
      if k > 1 {
        LevelPrefix(cs, c, k - 1, burst);
      }
    }
  }

  lemma CountSnoc(cs: seq<real>, c: real, j: nat, burst: nat)
    requires j <= |cs|
    ensures Count(cs + [c], j, |cs| + 1, burst)
            == Count(cs, j, |cs|, burst) + if Admitted(cs + [c], |cs|, burst) then 1 else 0
  {
    CountPrefix(cs, c, j, |cs|, burst);
  }

  // What operations a..b-1 admitted is what the reference admits from request
  // j on, at requests no earlier than operation a.
  lemma {:induction false} OpsCountRequests(ms: seq<Buckets>, ops: seq<Op>, oks: seq<bool>, a: nat, b: nat, ip: string,
                                            rps: real, burst: nat)
    requires FairRun(ms, ops, oks, ip, rps, burst) && a <= b <= |ops|
    ensures var ts, j := TimesOf(ops, b, ip), |TimesOf(ops, a, ip)|;
            && j <= |ts| && AdmittedOps(ops, oks, a, b, ip) == Count(Credits(ts, rps), j, |ts|, burst)
            && forall k :: j <= k < |ts| ==> a < |ops| && ops[a].now <= ts[k]
  {
    hide Credit;
    if a < b {
      OpsCountRequests(ms, ops, oks, a, b - 1, ip, rps, burst);
      if ops[b - 1].Request? && ops[b - 1].ip == ip {
        var ts, now := TimesOf(ops, b - 1, ip), ops[b - 1].now;
        EvictionIsInvisible(ms, ops, oks, b - 1, ip, rps, burst);
        AnswerIsReference(ts, now, rps, burst);
        CreditsSnoc(ts, now, rps);
        CountSnoc(Credits(ts, rps), Credit(rps, now), |TimesOf(ops, a, ip)|, burst);
      }
    }
  }

  lemma CreditsInWindow(ts: seq<real>, j: nat, from: real, to: real, rps: real, burst: nat) returns (cs: seq<real>)
    requires j <= |ts| && Ordered(ts) && rps >= 0.0
    requires forall k :: j <= k < |ts| ==> from <= ts[k] <= to
    ensures |cs| == |ts| && Ordered(cs) && Count(cs, j, |cs|, burst) == Count(Credits(ts, rps), j, |ts|, burst)
    ensures j < |cs| ==> cs[|cs| - 1] - cs[j] <= Credit(rps, to - from)
  {
    hide Credit;
    cs := Credits(ts, rps);
    CreditsOrdered(ts, rps);
    if j < |ts| {
      WindowCredit(rps, from, ts[j], ts[|ts| - 1], to);
    }
  }

  // Requests j.. all fall between from and to.
  lemma CountIsWithinRate(ts: seq<real>, j: nat, from: real, to: real, rps: real, burst: nat)
    requires j <= |ts| && Ordered(ts) && rps >= 0.0 && burst >= 1 && from <= to
    requires forall k :: j <= k < |ts| ==> from <= ts[k] <= to
    ensures Count(Credits(ts, rps), j, |ts|, burst) as real <= burst as real + Credit(rps, to - from)
  {
    hide Credit;
    var cs := CreditsInWindow(ts, j, from, to, rps, burst);
    WindowCredit(rps, from, from, from, to);
    if j < |cs| {
      Potential(cs, j, |cs| - 1, burst);
      TokensInRange(cs, |cs|, burst);
    }
  }

  /** Rate bound: over any stretch of any run, a client never crowded out is
      admitted at most burst + rps * elapsed times. */
  lemma RateIsBounded(ms: seq<Buckets>, ops: seq<Op>, oks: seq<bool>, a: nat, b: nat, ip: string, rps: real, burst: nat)
    requires FairRun(ms, ops, oks, ip, rps, burst) && a < b <= |ops|
    ensures AdmittedOps(ops, oks, a, b, ip) as real <= burst as real + Credit(rps, ops[b - 1].now - ops[a].now)
  {
    hide Credit;
    OpsCountRequests(ms, ops, oks, a, b, ip, rps, burst);
    TimesOrdered(ops, b, ip);
    CountIsWithinRate(TimesOf(ops, b, ip), |TimesOf(ops, a, ip)|, ops[a].now, ops[b - 1].now, rps, burst);
  }

  // ── Exactly which requests the limiter admits ──────────────────────────────

  predicate IsRequestOf(op: Op, ip: string) {
    op.Request? && op.ip == ip
  }

  // Request j of a client among the first n operations is some operation.
  lemma {:induction false} RequestAt(ops: seq<Op>, n: nat, ip: string, j: nat) returns (a: nat)
    requires n <= |ops| && j < |TimesOf(ops, n, ip)|
    ensures a < n && IsRequestOf(ops[a], ip) && |TimesOf(ops, a, ip)| == j && TimesOf(ops, n, ip)[j] == ops[a].now
  {
    if IsRequestOf(ops[n - 1], ip) && j == |TimesOf(ops, n - 1, ip)| {
      a := n - 1;
    } else {
      a := RequestAt(ops, n - 1, ip, j);
    }
  }

  lemma {:induction false} RequestIndex(ops: seq<Op>, a: nat, n: nat, ip: string)
    requires a < n <= |ops| && IsRequestOf(ops[a], ip)
    ensures |TimesOf(ops, a, ip)| < |TimesOf(ops, n, ip)| && TimesOf(ops, n, ip)[|TimesOf(ops, a, ip)|] == ops[a].now
  {
    if a < n - 1 {
      RequestIndex(ops, a, n - 1, ip);
    }
  }

  // Admitting operation n keeps the stretch since operation a within the rate.
  ghost predicate WithinRate(ops: seq<Op>, oks: seq<bool>, a: nat, n: nat, ip: string, rps: real, burst: nat)
    requires a <= n < |ops| == |oks|
  {
    AdmittedOps(ops, oks, a, n, ip) as real + 1.0 <= burst as real + Credit(rps, ops[n].now - ops[a].now)
  }

  // A stretch from one of the client's requests, in the terms of the reference.
  lemma StretchIsCount(ms: seq<Buckets>, ops: seq<Op>, oks: seq<bool>, a: nat, n: nat, ip: string, rps: real,
                       burst: nat)
    requires FairRun(ms, ops, oks, ip, rps, burst) && a < n < |ops| && IsRequestOf(ops[a], ip)
    requires IsRequestOf(ops[n], ip)
    ensures var ts, j := TimesOf(ops, n, ip), |TimesOf(ops, a, ip)|;
            var cs := Credits(ts, rps) + [Credit(rps, ops[n].now)];
            && j < |ts|
            && (WithinRate(ops, oks, a, n, ip, rps, burst) <==>
                Count(cs, j, |ts|, burst) as real + 1.0 <= burst as real + (cs[|ts|] - cs[j]))
  {
    hide Credit;
    var ts, j := TimesOf(ops, n, ip), |TimesOf(ops, a, ip)|;
    RequestIndex(ops, a, n, ip);
    OpsCountRequests(ms, ops, oks, a, n, ip, rps, burst);
    CountPrefix(Credits(ts, rps), Credit(rps, ops[n].now), j, |ts|, burst);
    CreditOfSpan(rps, ops[a].now, ops[n].now);
  }

  /** A client never crowded out is admitted exactly when, over every stretch from
      one of its requests to this one, admissions stay within burst plus rate
      times elapsed: the limiter turns away no more than it must. */
  lemma AdmittedIffRateAllows(ms: seq<Buckets>, ops: seq<Op>, oks: seq<bool>, n: nat, ip: string, rps: real, burst: nat)
    requires FairRun(ms, ops, oks, ip, rps, burst) && n < |ops| && IsRequestOf(ops[n], ip)
    ensures oks[n] <==> forall a :: 0 <= a < n && IsRequestOf(ops[a], ip) ==> WithinRate(ops, oks, a, n, ip, rps, burst)
  {
    hide Credit, WithinRate;
    var ts := TimesOf(ops, n, ip);
    var cs := Credits(ts, rps) + [Credit(rps, ops[n].now)];
    EvictionIsInvisible(ms, ops, oks, n, ip, rps, burst);
    AnswerIsReference(ts, ops[n].now, rps, burst);
    ReferenceOrdered(ops, n, ip, rps);
    AdmittedIffAffords(cs, |ts|, burst);
    if oks[n] {
      forall a | 0 <= a < n && IsRequestOf(ops[a], ip)
        ensures WithinRate(ops, oks, a, n, ip, rps, burst)
      {
        StretchIsCount(ms, ops, oks, a, n, ip, rps, burst);
        assert Affords(cs, |TimesOf(ops, a, ip)|, |ts|, burst);
      }
    } else {
      var j :| 0 <= j < |ts| && !Affords(cs, j, |ts|, burst);
      var a := RequestAt(ops, n, ip, j);
      StretchIsCount(ms, ops, oks, a, n, ip, rps, burst);
    }
  }

  lemma AdmittedIffAffords(cs: seq<real>, k: nat, burst: nat)
    requires k < |cs| && Ordered(cs) && burst >= 1
    ensures Admitted(cs, k, burst) <==> forall j :: 0 <= j < k ==> Affords(cs, j, k, burst)
  {
    AdmittedIffWithinRate(cs, k, burst);
    assert Count(cs, k, k, burst) == 0;
    hide Admitted, Count;
    if forall j :: 0 <= j < k ==> Affords(cs, j, k, burst) {
      forall j | 0 <= j <= k
        ensures Count(cs, j, k, burst) as real + 1.0 <= burst as real + (cs[k] - cs[j])
      {
        if j < k {
          assert Affords(cs, j, k, burst);
        }
      }
    }
  }

  ghost predicate Affords(cs: seq<real>, j: nat, k: nat, burst: nat)
    requires j <= k < |cs|
  {
    Count(cs, j, k, burst) as real + 1.0 <= burst as real + (cs[k] - cs[j])
  }

  lemma ReferenceOrdered(ops: seq<Op>, n: nat, ip: string, rps: real)
    requires n < |ops| && IsRequestOf(ops[n], ip) && rps >= 0.0
    requires forall i, j :: 0 <= i <= j < |ops| ==> ops[i].now <= ops[j].now
    ensures Ordered(Credits(TimesOf(ops, n, ip), rps) + [Credit(rps, ops[n].now)])
  {
    hide Credit;
    TimesOrdered(ops, n + 1, ip);
    CreditsOrdered(TimesOf(ops, n + 1, ip), rps);
    CreditsSnoc(TimesOf(ops, n, ip), ops[n].now, rps);
  }
}
