/** The container name cache (container_cache.go): found containers for a minute,
    remembered misses for five, filled by fetches that run outside the lock. */
module NameCache {
  import opened Base

  const CACHE_TTL := 60 * SECOND
  const UNMANAGED_TTL := 5 * MINUTE

  datatype Container = Container(id: int)
  datatype Fetched = Found(container: Container) | NoRows | Failed
  datatype Entry = Entry(container: Container, cachedAt: int)
  datatype Tables = Tables(entries: map<string, Entry>, unmanaged: map<string, int>)

  predicate EntryLive(t: Tables, name: string, now: int) {
    name in t.entries && now - t.entries[name].cachedAt < CACHE_TTL
  }

  predicate MissLive(t: Tables, name: string, now: int) {
    name in t.unmanaged && now - t.unmanaged[name] < UNMANAGED_TTL
  }

  function Fill(t: Tables, name: string, result: Fetched, forLog: bool, now: int): Tables {
    match result
    case Found(c) => Tables(t.entries[name := Entry(c, now)], t.unmanaged - {name})
    case NoRows => if forLog then t.(unmanaged := t.unmanaged[name := now]) else t
    case Failed => t
  }

  function Forgotten(t: Tables, name: string): Tables {
    Tables(t.entries - {name}, t.unmanaged - {name})
  }

  function Evicted(t: Tables, now: int): Tables {
    Tables(map name | name in t.entries && EntryLive(t, name, now) :: t.entries[name],
           map name | name in t.unmanaged && MissLive(t, name, now) :: t.unmanaged[name])
  }

  /** How long what a fetch returned is served: a container found for a minute, to
      everyone; a miss of the log path for five, to the log path; any other miss,
      and a failure, not at all. A find ends a remembered miss. */
  lemma FillServes(t: Tables, name: string, result: Fetched, forLog: bool, now: int, later: int)
    requires now <= later
    ensures var t' := Fill(t, name, result, forLog, now);
            match result
            case Found(c) =>
              && (EntryLive(t', name, later) <==> later - now < 60000)
              && t'.entries[name].container == c && !MissLive(t', name, later)
            case NoRows => if forLog then MissLive(t', name, later) <==> later - now < 300000 else t' == t
            case Failed => t' == t
    ensures forall other :: other != name ==>
              && EntryLive(Fill(t, name, result, forLog, now), other, later) == EntryLive(t, other, later)
              && MissLive(Fill(t, name, result, forLog, now), other, later) == MissLive(t, other, later)
  {
  }

  // ── One caller at a time ───────────────────────────────────────────────────

  // No name is live in both tables, now or later.
  ghost predicate Exclusive(t: Tables, now: int) {
    forall name :: EntryLive(t, name, now) ==> !MissLive(t, name, now)
  }

  lemma ExclusiveLater(t: Tables, now: int, later: int)
    requires Exclusive(t, now) && now <= later
    ensures Exclusive(t, later)
  {
    forall name | EntryLive(t, name, later)
      ensures !MissLive(t, name, later)
    {
      assert EntryLive(t, name, now);
    }
  }

  /** Filling makes a name live in both tables exactly when the log path records
      a miss over an entry still live. */
  lemma FillExclusiveIff(t: Tables, name: string, result: Fetched, forLog: bool, now: int)
    requires Exclusive(t, now)
    ensures Exclusive(Fill(t, name, result, forLog, now), now) <==>
              !(result.NoRows? && forLog && EntryLive(t, name, now))
  {
    var t' := Fill(t, name, result, forLog, now);
    if result.NoRows? && forLog && EntryLive(t, name, now) {
      assert EntryLive(t', name, now) && MissLive(t', name, now);
    } else {
      forall other | EntryLive(t', other, now)
        ensures !MissLive(t', other, now)
      {
        assert other != name ==> EntryLive(t, other, now);
      }
    }
  }

  class Cache {
    var entries: map<string, Entry>
    var unmanaged: map<string, int>

    function State(): Tables
      reads this
    {
      Tables(entries, unmanaged)
    }

    constructor ()
      ensures State() == Tables(map[], map[])
    {
      entries, unmanaged := map[], map[];
    }

    /** Looked up at `now`; on a miss `fetched` arrives and is stored at `later`.
        A live entry answers; anything else answers what was fetched. */
    method GetContainerByName(name: string, now: int, fetched: Fetched, later: int) returns (r: Fetched)
      modifies this
      ensures r == if EntryLive(old(State()), name, now) then Found(old(entries)[name].container) else fetched
      ensures State() == if EntryLive(old(State()), name, now) then old(State())
                         else Fill(old(State()), name, fetched, false, later)
      ensures now <= later && Exclusive(old(State()), now) ==> Exclusive(State(), later)
    {
      if now <= later && Exclusive(State(), now) {
        ExclusiveLater(State(), now, later);
        FillExclusiveIff(State(), name, fetched, false, later);
      }
      if name in entries && now - entries[name].cachedAt < CACHE_TTL {
        return Found(entries[name].container);
      }
      if fetched.Found? {
        entries := entries[name := Entry(fetched.container, later)];
        unmanaged := unmanaged - {name};
      }
      r := fetched;
    }

    /** None is the remembered miss. Run alone, no name becomes live in both. */
    method LookupForLog(name: string, now: int, fetched: Fetched, later: int) returns (r: Option<Fetched>)
      modifies this
      ensures r.None? <==> MissLive(old(State()), name, now)
      ensures r.Some? ==>
                r.value == if EntryLive(old(State()), name, now) then Found(old(entries)[name].container) else fetched
      ensures State() == if r.None? || EntryLive(old(State()), name, now) then old(State())
                         else Fill(old(State()), name, fetched, true, later)
      ensures now <= later && Exclusive(old(State()), now) ==> Exclusive(State(), later)
    {
      if now <= later && Exclusive(State(), now) {
        ExclusiveLater(State(), now, later);
        FillExclusiveIff(State(), name, fetched, true, later);
      }
      if name in unmanaged && now - unmanaged[name] < UNMANAGED_TTL {
        return None;
      }
      ghost var before := State();
      var container := GetContainerByName(name, now, fetched, later);
      if container.NoRows? {
        unmanaged := unmanaged[name := later];
      }
      r := Some(container);
      assert State() == if EntryLive(before, name, now) then before else Fill(before, name, fetched, true, later);
    }

    method Invalidate(name: string)
      modifies this
      ensures State() == Forgotten(old(State()), name)
    {
      entries := entries - {name};
      unmanaged := unmanaged - {name};
    }

    method InvalidateAll()
      modifies this
      ensures forall name :: Forgotten(State(), name) == State()
    {
      entries, unmanaged := map[], map[];
    }

    method EvictExpired(now: int)
      modifies this
      ensures State() == Evicted(old(State()), now)
    {
      var before := State();
      var todo := before.entries.Keys;
      while todo != {}
        invariant todo <= before.entries.Keys && before == old(State()) && unmanaged == before.unmanaged
        invariant forall n :: n in entries <==> n in before.entries && (n in todo || EntryLive(before, n, now))
        invariant forall n :: n in entries ==> entries[n] == before.entries[n]
        decreases todo
      {
        var name := Pick(todo);
        if now - entries[name].cachedAt >= CACHE_TTL {
          entries := entries - {name};
        }
        todo := todo - {name};
      }
      assert entries == Evicted(before, now).entries;
      todo := before.unmanaged.Keys;
      while todo != {}
        invariant todo <= before.unmanaged.Keys && before == old(State()) && entries == Evicted(before, now).entries
        invariant forall n :: n in unmanaged <==> n in before.unmanaged && (n in todo || MissLive(before, n, now))
        invariant forall n :: n in unmanaged ==> unmanaged[n] == before.unmanaged[n]
        decreases todo
      {
        var name := Pick(todo);
        if now - unmanaged[name] >= UNMANAGED_TTL {
          unmanaged := unmanaged - {name};
        }
        todo := todo - {name};
      }
    }
  }

  // ── Any number of callers ──────────────────────────────────────────────────

  // Where a lookup is between its critical sections; `read` is its fetch's place
  // among all fetches.
  datatype Op =
    | AtEntries(name: string, forLog: bool)
    | ToFetch(name: string, forLog: bool)
    | Holding(name: string, forLog: bool, result: Fetched, read: nat)

  datatype Read = Read(name: string, result: Fetched, at: int)

  datatype World = World(t: Tables, db: map<string, Container>, now: int, ops: map<int, Op>, log: seq<Read>)

  datatype Act =
    | Start(op: int, name: string, forLog: bool)
    | Probe(op: int)
    | Fetch(op: int, ok: bool)
    | Complete(op: int)
    | Invalidate(name: string)
    | InvalidateAll
    | Evict
    | Tick(t: int)
    | Write(db: map<string, Container>)

  datatype Answer = Quiet | Hit(name: string,
                                container: Container) | Remembered(name: string) | Fresh(name: string, result: Fetched)

  predicate Enabled(w: World, a: Act) {
    match a
    case Start(op, _, _) => op !in w.ops
    case Probe(op) => op in w.ops && w.ops[op].AtEntries?
    case Fetch(op, _) => op in w.ops && w.ops[op].ToFetch?
    case Complete(op) => op in w.ops && w.ops[op].Holding?
    case Tick(t) => t >= w.now
    case _ => true
  }

  function Next(w: World, a: Act): World
    requires Enabled(w, a)
  {
    match a
    case Start(op, name, forLog) =>
      if forLog && MissLive(w.t, name, w.now) then w else w.(ops := w.ops[op := AtEntries(name, forLog)])
    case Probe(op) =>
      var o := w.ops[op];
      w.(ops := if EntryLive(w.t, o.name, w.now) then w.ops - {op} else w.ops[op := ToFetch(o.name, o.forLog)])
    case Fetch(op, ok) =>
      var o := w.ops[op];
      var result := if !ok then Failed else if o.name in w.db then Found(w.db[o.name]) else NoRows;
      w.(ops := w.ops[op := Holding(o.name, o.forLog, result, |w.log|)], log := w.log + [Read(o.name, result, w.now)])
    case Complete(op) =>
      var o := w.ops[op];
      w.(t := Fill(w.t, o.name, o.result, o.forLog, w.now), ops := w.ops - {op})
    case Invalidate(name) => w.(t := Forgotten(w.t, name))
    case InvalidateAll => w.(t := Tables(map[], map[]))
    case Evict => w.(t := Evicted(w.t, w.now))
    case Tick(t) => w.(now := t)
    case Write(db) => w.(db := db)
  }

  // What a caller gets back in this step.
  function Replies(w: World, a: Act): Answer
    requires Enabled(w, a)
  {
    match a
    case Start(_, name, forLog) => if forLog && MissLive(w.t, name, w.now) then Remembered(name) else Quiet
    case Probe(op) =>
      var name := w.ops[op].name;
      if EntryLive(w.t, name, w.now) then Hit(name, w.t.entries[name].container) else Quiet
    case Complete(op) => Fresh(w.ops[op].name, w.ops[op].result)
    case _ => Quiet
  }

  ghost predicate Run(tr: seq<World>, acts: seq<Act>) {
    && |tr| == |acts| + 1
    && forall i :: 0 <= i < |acts| ==> Enabled(tr[i], acts[i]) && tr[i + 1] == Next(tr[i], acts[i])
  }

  // ── Where a stored answer comes from ───────────────────────────────────────

  predicate Within(delay: Option<int>, readAt: int, storedAt: int) {
    readAt <= storedAt && (delay.Some? ==> storedAt - readAt <= delay.value)
  }

  predicate IsSource(r: Read, name: string, result: Fetched, storedAt: int, delay: Option<int>) {
    r.name == name && r.result == result && Within(delay, r.at, storedAt)
  }

  // Some fetch, the first counted being `from`, returned it, at most `delay` before it was stored.
  ghost predicate Sourced(log: seq<Read>, name: string, result: Fetched, storedAt: int, delay: Option<int>, from: nat) {
    exists j :: from <= j < |log| && IsSource(log[j], name, result, storedAt, delay)
  }

  ghost predicate OpSound(w: World, o: Op, name: string, from: nat) {
    o.Holding? && o.name == name ==>
      && from <= o.read < |w.log| && w.log[o.read].name == name
      && w.log[o.read].result == o.result && w.log[o.read].at <= w.now
  }

  ghost predicate NameSound(w: World, name: string, delay: Option<int>, from: nat) {
    && (name in w.t.entries ==>
          var e := w.t.entries[name];
          Sourced(w.log, name, Found(e.container), e.cachedAt, delay, from))
    && (name in w.t.unmanaged ==> Sourced(w.log, name, NoRows, w.t.unmanaged[name], delay, from))
    && (forall op :: op in w.ops ==> OpSound(w, w.ops[op], name, from))
    && from <= |w.log|
  }

  // A fetched result is stored within the delay.
  predicate Prompt(w: World, a: Act, delay: Option<int>) {
    a.Complete? && delay.Some? && a.op in w.ops && w.ops[a.op].Holding? && w.ops[a.op].read < |w.log| ==>
      w.now - w.log[w.ops[a.op].read].at <= delay.value
  }

  lemma SourcedLater(log: seq<Read>, r: Read, name: string, result: Fetched, at: int, delay: Option<int>, from: nat)
    requires Sourced(log, name, result, at, delay, from)
    ensures Sourced(log + [r], name, result, at, delay, from)
  {
    var j :| from <= j < |log| && IsSource(log[j], name, result, at, delay);
    assert (log + [r])[j] == log[j];
  }

  lemma FetchKeeps(w: World, a: Act, name: string, delay: Option<int>, from: nat)
    requires a.Fetch? && Enabled(w, a) && NameSound(w, name, delay, from)
    ensures NameSound(Next(w, a), name, delay, from)
  {
    var w' := Next(w, a);
    var r := w'.log[|w.log|];
    assert w'.log == w.log + [r];
    if name in w.t.entries {
      SourcedLater(w.log, r, name, Found(w.t.entries[name].container), w.t.entries[name].cachedAt, delay, from);
    }
    if name in w.t.unmanaged {
      SourcedLater(w.log, r, name, NoRows, w.t.unmanaged[name], delay, from);
    }
    forall op | op in w'.ops
      ensures OpSound(w', w'.ops[op], name, from)
    {
      if op != a.op {
        assert OpSound(w, w.ops[op], name, from);
      }
    }
  }

  lemma CompleteKeeps(w: World, a: Act, name: string, delay: Option<int>, from: nat)
    requires a.Complete? && Enabled(w, a) && NameSound(w, name, delay, from) && Prompt(w, a, delay)
    ensures NameSound(Next(w, a), name, delay, from)
  {
    var o := w.ops[a.op];
    assert OpSound(w, o, name, from);
    if o.name == name {
      assert IsSource(w.log[o.read], name, o.result, w.now, delay);
    }
    forall op | op in Next(w, a).ops
      ensures OpSound(Next(w, a), Next(w, a).ops[op], name, from)
    {
      assert OpSound(w, w.ops[op], name, from);
    }
  }

  lemma StepKeepsSound(w: World, a: Act, name: string, delay: Option<int>, from: nat)
    requires Enabled(w, a) && NameSound(w, name, delay, from) && Prompt(w, a, delay)
    ensures NameSound(Next(w, a), name, delay, from)
  {
    match a
    case Fetch(_, _) => FetchKeeps(w, a, name, delay, from);
    case Complete(_) => CompleteKeeps(w, a, name, delay, from);
    case _ =>
      var w' := Next(w, a);
      forall op | op in w'.ops
        ensures OpSound(w', w'.ops[op], name, from)
      {
        assert op in w.ops ==> OpSound(w, w.ops[op], name, from);
      }
  }

  lemma {:induction false} SoundHolds(tr: seq<World>, acts: seq<Act>, name: string, delay: Option<int>, from: nat,
                                      n: nat)
    requires Run(tr, acts) && n < |tr| && NameSound(tr[0], name, delay, from)
    requires forall i :: 0 <= i < |acts| ==> Prompt(tr[i], acts[i], delay)
    ensures NameSound(tr[n], name, delay, from)
  {
    if n > 0 {
      SoundHolds(tr, acts, name, delay, from, n - 1);
      StepKeepsSound(tr[n - 1], acts[n - 1], name, delay, from);
    }
  }

  ghost predicate Empty(w: World) {
    w.t == Tables(map[], map[]) && w.ops == map[] && w.log == []
  }

  // A fetch of the name returned this less than `age` ago.
  ghost predicate ReadWithin(w: World, name: string, result: Fetched, age: int, from: nat) {
    exists j :: from <= j < |w.log| && w.log[j].name == name && w.log[j].result == result && w.now - age < w.log[j].at
  }

  /** In every interleaving a hit is what the store returned for that name less
      than the TTL plus the delay between fetch and fill ago; so is a remembered
      miss, with its own TTL. */
  lemma AnswersAreRecent(tr: seq<World>, acts: seq<Act>, n: nat, delay: int)
    requires Run(tr, acts) && n < |acts| && Empty(tr[0])
    requires forall i :: 0 <= i < |acts| ==> Prompt(tr[i], acts[i], Some(delay))
    ensures match Replies(tr[n], acts[n])
            case Hit(name, c) => ReadWithin(tr[n], name, Found(c), CACHE_TTL + delay, 0)
            case Remembered(name) => ReadWithin(tr[n], name, NoRows, UNMANAGED_TTL + delay, 0)
            case _ => true
  {
    var w := tr[n];
    match Replies(w, acts[n])
    case Hit(name, c) =>
      SoundHolds(tr, acts, name, Some(delay), 0, n);
      var j :| 0 <= j < |w.log| && IsSource(w.log[j], name, Found(c), w.t.entries[name].cachedAt, Some(delay));
      assert w.now - (CACHE_TTL + delay) < w.log[j].at;
    case Remembered(name) =>
      SoundHolds(tr, acts, name, Some(delay), 0, n);
      var j :| 0 <= j < |w.log| && IsSource(w.log[j], name, NoRows, w.t.unmanaged[name], Some(delay));
      assert w.now - (UNMANAGED_TTL + delay) < w.log[j].at;
    case _ =>
  }

  // ── Invalidation ───────────────────────────────────────────────────────────

  // A fetch of the name that has its result and will store it.
  predicate InFlight(w: World, name: string) {
    exists op :: op in w.ops && WillStore(w.ops[op], name)
  }

  predicate WillStore(o: Op, name: string) {
    o.Holding? && o.name == name && (o.result.Found? || (o.result.NoRows? && o.forLog))
  }

  ghost predicate LoggedFrom(log: seq<Read>, name: string, result: Fetched, from: nat) {
    exists j :: from <= j < |log| && log[j].name == name && log[j].result == result
  }

  // The answer was returned by a fetch numbered `from` or later.
  ghost predicate AnswersFrom(w: World, a: Act, name: string, from: nat)
    requires Enabled(w, a)
  {
    match Replies(w, a)
    case Hit(n, c) => n == name ==> LoggedFrom(w.log, name, Found(c), from)
    case Remembered(n) => n == name ==> LoggedFrom(w.log, name, NoRows, from)
    case _ => true
  }

  // Whatever follows, the cache answers for the name only what is fetched from now on.
  ghost predicate Forgets(w: World, name: string) {
    forall tr, acts, n :: Run(tr, acts) && tr[0] == w && 0 <= n < |acts| ==> AnswersFrom(tr[n], acts[n], name, |w.log|)
  }

  ghost predicate StoresNothingOld(w: World, name: string, from: nat) {
    && (name in w.t.entries ==>
          var e := w.t.entries[name];
          Sourced(w.log, name, Found(e.container), e.cachedAt, None, from))
    && (name in w.t.unmanaged ==> Sourced(w.log, name, NoRows, w.t.unmanaged[name], None, from))
    && (forall op :: op in w.ops && WillStore(w.ops[op], name) ==> OpSound(w, w.ops[op], name, from))
    && from <= |w.log|
  }

  lemma StepStoresNothingOld(w: World, a: Act, name: string, from: nat)
    requires Enabled(w, a) && StoresNothingOld(w, name, from)
    ensures StoresNothingOld(Next(w, a), name, from)
  {
    var w' := Next(w, a);
    if a.Fetch? {
      var r := w'.log[|w.log|];
      assert w'.log == w.log + [r];
      if name in w.t.entries {
        SourcedLater(w.log, r, name, Found(w.t.entries[name].container), w.t.entries[name].cachedAt, None, from);
      }
      if name in w.t.unmanaged {
        SourcedLater(w.log, r, name, NoRows, w.t.unmanaged[name], None, from);
      }
    }
    if a.Complete? && WillStore(w.ops[a.op], name) {
      var o := w.ops[a.op];
      assert IsSource(w.log[o.read], name, o.result, w.now, None);
    }
    forall op | op in w'.ops && WillStore(w'.ops[op], name)
      ensures OpSound(w', w'.ops[op], name, from)
    {
      if op in w.ops && w.ops[op] == w'.ops[op] {
        assert OpSound(w, w.ops[op], name, from);
      }
    }
  }

  lemma {:induction false} NothingOldHolds(tr: seq<World>, acts: seq<Act>, name: string, from: nat, n: nat)
    requires Run(tr, acts) && n < |tr| && StoresNothingOld(tr[0], name, from)
    ensures StoresNothingOld(tr[n], name, from)
  {
    if n > 0 {
      NothingOldHolds(tr, acts, name, from, n - 1);
      StepStoresNothingOld(tr[n - 1], acts[n - 1], name, from);
    }
  }

  lemma NothingOldAnswers(w: World, a: Act, name: string, from: nat)
    requires Enabled(w, a) && StoresNothingOld(w, name, from)
    ensures AnswersFrom(w, a, name, from)
  {
    match Replies(w, a)
    case Hit(n, c) =>
      if n == name {
        var j :| from <= j < |w.log| && IsSource(w.log[j], name, Found(c), w.t.entries[name].cachedAt, None);
      }
    case Remembered(n) =>
      if n == name {
        var j :| from <= j < |w.log| && IsSource(w.log[j], name, NoRows, w.t.unmanaged[name], None);
      }
    case _ =>
  }

  // A result about to be stored answers the next lookup.
  lemma InFlightSurvives(w: World, name: string, op: int)
    requires op in w.ops && WillStore(w.ops[op], name)
    ensures !Forgets(w, name)
  {
    var o := w.ops[op];
    var w1 := Next(w, Complete(op));
    if o.result.NoRows? {
      var tr, acts := [w, w1, Next(w1, Start(op, name, true))], [Complete(op), Start(op, name, true)];
      assert Run(tr, acts);
      assert !AnswersFrom(tr[1], acts[1], name, |w.log|);
    } else {
      var w2 := Next(w1, Start(op, name, false));
      var tr, acts := [w, w1, w2, Next(w2, Probe(op))], [Complete(op), Start(op, name, false), Probe(op)];
      assert Run(tr, acts);
      assert !AnswersFrom(tr[2], acts[2], name, |w.log|);
    }
  }

  // With nothing stored for the name, what is in flight decides.
  lemma ForgetsIff(w: World, name: string)
    requires name !in w.t.entries && name !in w.t.unmanaged
    ensures Forgets(w, name) <==> !InFlight(w, name)
  {
    if InFlight(w, name) {
      var op :| op in w.ops && WillStore(w.ops[op], name);
      InFlightSurvives(w, name, op);
    } else {
      assert StoresNothingOld(w, name, |w.log|);
      forall tr, acts, n | Run(tr, acts) && tr[0] == w && 0 <= n < |acts|
        ensures AnswersFrom(tr[n], acts[n], name, |w.log|)
      {
        NothingOldHolds(tr, acts, name, |w.log|, n);
        NothingOldAnswers(tr[n], acts[n], name, |w.log|);
      }
    }
  }

  /** After Invalidate the cache answers only what is fetched afterwards, in every
      continuation, exactly when no fetch of the name is about to be stored. */
  lemma InvalidateForgetsIff(w: World, name: string)
    ensures Forgets(Next(w, Invalidate(name)), name) <==> !InFlight(w, name)
  {
    ForgetsIff(Next(w, Invalidate(name)), name);
  }

  /** InvalidateAll does so for every name at once, each on its own condition. */
  lemma InvalidateAllForgetsIff(w: World)
    ensures forall name :: Forgets(Next(w, InvalidateAll), name) <==> !InFlight(w, name)
  {
    hide Forgets;
    forall name
      ensures Forgets(Next(w, InvalidateAll), name) <==> !InFlight(w, name)
    {
      ForgetsIff(Next(w, InvalidateAll), name);
    }
  }

  // ── Live in both tables ────────────────────────────────────────────────────

  // A log lookup records a miss over an entry still live.
  predicate Clashes(w: World, a: Act) {
    && a.Complete? && a.op in w.ops && w.ops[a.op].Holding?
    && w.ops[a.op].result.NoRows? && w.ops[a.op].forLog && EntryLive(w.t, w.ops[a.op].name, w.now)
  }

  lemma FewerAreExclusive(t: Tables, t': Tables, now: int)
    requires Exclusive(t, now)
    requires forall name :: EntryLive(t', name, now) ==> EntryLive(t, name, now)
    requires forall name :: MissLive(t', name, now) ==> MissLive(t, name, now)
    ensures Exclusive(t', now)
  {
  }

  // Of all the steps, exactly this one makes a name live in both tables.
  lemma StepExclusiveIff(w: World, a: Act)
    requires Enabled(w, a) && Exclusive(w.t, w.now)
    ensures Exclusive(Next(w, a).t, Next(w, a).now) <==> !Clashes(w, a)
  {
    match a
    case Complete(op) => FillExclusiveIff(w.t, w.ops[op].name, w.ops[op].result, w.ops[op].forLog, w.now);
    case Tick(t) => ExclusiveLater(w.t, w.now, t);
    case Invalidate(name) => FewerAreExclusive(w.t, Forgotten(w.t, name), w.now);
    case InvalidateAll => FewerAreExclusive(w.t, Tables(map[], map[]), w.now);
    case Evict => FewerAreExclusive(w.t, Evicted(w.t, w.now), w.now);
    case _ =>
  }

  ghost predicate NeverInBoth(tr: seq<World>, n: nat)
    requires n < |tr|
  {
    forall i :: 0 <= i <= n ==> Exclusive(tr[i].t, tr[i].now)
  }

  ghost predicate NeverClashes(tr: seq<World>, acts: seq<Act>, n: nat)
    requires n <= |acts| && n < |tr|
  {
    forall i :: 0 <= i < n ==> !Clashes(tr[i], acts[i])
  }

  /** In every run, no name is ever live in both tables exactly when no log lookup
      records a miss while another lookup's entry for the name is live. */
  lemma {:induction false} NeverInBothIff(tr: seq<World>, acts: seq<Act>, n: nat)
    requires Run(tr, acts) && Exclusive(tr[0].t, tr[0].now) && n < |tr|
    ensures NeverInBoth(tr, n) <==> NeverClashes(tr, acts, n)
  {
    hide Next, Exclusive, Clashes;
    if n > 0 {
      NeverInBothIff(tr, acts, n - 1);
      assert NeverInBoth(tr, n) <==> NeverInBoth(tr, n - 1) && Exclusive(tr[n].t, tr[n].now);
      assert NeverClashes(tr, acts, n) <==> NeverClashes(tr, acts, n - 1) && !Clashes(tr[n - 1], acts[n - 1]);
      if NeverInBoth(tr, n - 1) {
        StepExclusiveIff(tr[n - 1], acts[n - 1]);
      }
    }
  }

  // A log lookup that finds nothing, and one that finds the container just
  // created, from fetch to answer.
  function BothActs(name: string, c: Container): seq<Act> {
    [Start(1, name, true), Probe(1), Fetch(1, true), Write(map[name := c]),
     Start(2, name, false), Probe(2), Fetch(2, true), Complete(2), Complete(1)]
  }

  // The two lookups side by side, both fetched.
  function BothFetched(name: string, c: Container, now: int): World {
    World(Tables(map[], map[]), map[name := c], now,
          map[1 := Holding(name, true, NoRows, 0), 2 := Holding(name, false, Found(c), 1)],
          [Read(name, NoRows, now), Read(name, Found(c), now)])
  }

  // The log lookup alone, with the name just missed.
  function OneFetched(name: string, now: int): World {
    World(Tables(map[], map[]), map[], now, map[1 := Holding(name, true, NoRows, 0)], [Read(name, NoRows, now)])
  }

  lemma FirstFetches(w0: World, name: string) returns (tr: seq<World>)
    requires Empty(w0) && w0.db == map[]
    ensures Run(tr, [Start(1, name, true), Probe(1), Fetch(1, true)]) && tr[0] == w0
    ensures tr[3] == OneFetched(name, w0.now)
  {
    var w1 := w0.(ops := map[1 := AtEntries(name, true)]);
    var w2 := w0.(ops := map[1 := ToFetch(name, true)]);
    assert Next(w0, Start(1, name, true)) == w1;
    assert Next(w1, Probe(1)) == w2;
    assert Next(w2, Fetch(1, true)) == OneFetched(name, w0.now);
    tr := [w0, w1, w2, OneFetched(name, w0.now)];
  }

  lemma SecondFetches(name: string, c: Container, now: int) returns (tr: seq<World>)
    ensures Run(tr, [Write(map[name := c]), Start(2, name, false), Probe(2), Fetch(2, true)])
    ensures tr[0] == OneFetched(name, now) && tr[4] == BothFetched(name, c, now)
  {
    var w3 := OneFetched(name, now);
    var w4 := w3.(db := map[name := c]);
    var w5 := w4.(ops := w4.ops[2 := AtEntries(name, false)]);
    var w6 := w4.(ops := w4.ops[2 := ToFetch(name, false)]);
    assert Next(w4, Start(2, name, false)) == w5;
    assert Next(w5, Probe(2)) == w6;
    assert Next(w6, Fetch(2, true)) == BothFetched(name, c, now);
    tr := [w3, w4, w5, w6, BothFetched(name, c, now)];
  }

  lemma RunsJoin(tr: seq<World>, acts: seq<Act>, tr': seq<World>, acts': seq<Act>)
    requires Run(tr, acts) && Run(tr', acts') && tr[|acts|] == tr'[0]
    ensures Run(tr + tr'[1..], acts + acts') && (tr + tr'[1..])[|acts + acts'|] == tr'[|acts'|]
  {
    hide Next, Enabled;
    var all, acted := tr + tr'[1..], acts + acts';
    forall i | 0 <= i < |acted|
      ensures Enabled(all[i], acted[i]) && all[i + 1] == Next(all[i], acted[i])
    {
      if i < |acts| {
        assert all[i] == tr[i] && all[i + 1] == tr[i + 1] && acted[i] == acts[i];
      } else {
        var j := i - |acts|;
        assert all[i] == tr'[j] && all[i + 1] == tr'[j + 1] && acted[i] == acts'[j];
      }
    }
  }

  lemma BothComplete(name: string, c: Container, now: int) returns (tr: seq<World>)
    ensures Run(tr, [Complete(2), Complete(1)]) && tr[0] == BothFetched(name, c, now)
    ensures EntryLive(tr[2].t, name, tr[2].now) && MissLive(tr[2].t, name, tr[2].now)
  {
    var w7 := BothFetched(name, c, now);
    var w8 := Next(w7, Complete(2));
    tr := [w7, w8, Next(w8, Complete(1))];
  }

  /** And it happens: two lookups from an empty cache, one of them fetched before
      the container was created, leave its name live in both tables. */
  lemma BothLive(w0: World, name: string, c: Container) returns (tr: seq<World>)
    requires Empty(w0) && w0.db == map[]
    ensures Run(tr, BothActs(name, c)) && tr[0] == w0
    ensures EntryLive(tr[9].t, name, tr[9].now) && MissLive(tr[9].t, name, tr[9].now) && !Exclusive(tr[9].t, tr[9].now)
  {
    hide Next, Enabled, EntryLive, MissLive;
    var first := FirstFetches(w0, name);
    var second := SecondFetches(name, c, w0.now);
    var third := BothComplete(name, c, w0.now);
    RunsJoin(first, BothActs(name, c)[..3], second, BothActs(name, c)[3..7]);
    var fetched := first + second[1..];
    RunsJoin(fetched, BothActs(name, c)[..3] + BothActs(name, c)[3..7], third, BothActs(name, c)[7..]);
    tr := fetched + third[1..];
    assert BothActs(name, c)[..3] + BothActs(name, c)[3..7] + BothActs(name, c)[7..] == BothActs(name, c);
  }

  // ── Eviction ───────────────────────────────────────────────────────────────

  // The same live contents, from now on.
  ghost predicate Agree(t: Tables, t': Tables, now: int) {
    forall name ::
      && EntryLive(t, name, now) == EntryLive(t', name, now)
      && MissLive(t, name, now) == MissLive(t', name, now)
      && (EntryLive(t, name, now) ==> t.entries[name] == t'.entries[name])
      && (MissLive(t, name, now) ==> t.unmanaged[name] == t'.unmanaged[name])
  }

  lemma AgreeLater(t: Tables, t': Tables, now: int, later: int)
    requires Agree(t, t', now) && now <= later
    ensures Agree(t, t', later)
  {
    forall name
      ensures EntryLive(t, name, later) == EntryLive(t', name, later)
      ensures MissLive(t, name, later) == MissLive(t', name, later)
      ensures EntryLive(t, name, later) ==> t.entries[name] == t'.entries[name]
      ensures MissLive(t, name, later) ==> t.unmanaged[name] == t'.unmanaged[name]
    {
      assert EntryLive(t, name, now) == EntryLive(t', name, now);
    }
  }

  // Filling, forgetting and evicting act on the live contents alone.
  lemma UpdatesAgree(t: Tables, t': Tables, now: int)
    requires Agree(t, t', now)
    ensures forall name, result, forLog :: Agree(Fill(t, name, result, forLog, now),
                                                 Fill(t', name, result, forLog, now), now)
    ensures forall name :: Agree(Forgotten(t, name), Forgotten(t', name), now)
    ensures Agree(Evicted(t, now), Evicted(t', now), now) && Agree(t, Evicted(t, now), now)
  {
    forall name, result, forLog
      ensures Agree(Fill(t, name, result, forLog, now), Fill(t', name, result, forLog, now), now)
    {
      FillAgrees(t, t', name, result, forLog, now);
    }
    forall name
      ensures Agree(Forgotten(t, name), Forgotten(t', name), now)
    {
      ForgottenAgrees(t, t', name, now);
    }
    EvictedAgrees(t, now);
    EvictedAgrees(t', now);
  }

  lemma FillAgrees(t: Tables, t': Tables, name: string, result: Fetched, forLog: bool, now: int)
    requires Agree(t, t', now)
    ensures Agree(Fill(t, name, result, forLog, now), Fill(t', name, result, forLog, now), now)
  {
    forall other | other != name
      ensures EntryLive(Fill(t, name, result, forLog, now), other, now) == EntryLive(t, other, now)
      ensures MissLive(Fill(t, name, result, forLog, now), other, now) == MissLive(t, other, now)
    {
    }
  }

  lemma ForgottenAgrees(t: Tables, t': Tables, name: string, now: int)
    requires Agree(t, t', now)
    ensures Agree(Forgotten(t, name), Forgotten(t', name), now)
  {
    forall other | other != name
      ensures EntryLive(Forgotten(t, name), other, now) == EntryLive(t, other, now)
      ensures MissLive(Forgotten(t, name), other, now) == MissLive(t, other, now)
    {
    }
  }

  lemma EvictedAgrees(t: Tables, now: int)
    ensures Agree(t, Evicted(t, now), now)
  {
  }

  lemma StepAgrees(w: World, t: Tables, a: Act)
    requires Enabled(w, a) && Agree(w.t, t, w.now)
    ensures Enabled(w.(t := t), a) && Replies(w.(t := t), a) == Replies(w, a)
    ensures var w' := Next(w, a); var t' := Next(w.(t := t), a).t;
            Next(w.(t := t), a) == w'.(t := t') && Agree(w'.t, t', w'.now)
  {
    UpdatesAgree(w.t, t, w.now);
    if a.Tick? {
      AgreeLater(w.t, t, w.now, a.t);
    }
  }

  // The answers of a run of acts, None when one is not enabled.
  function Answers(w: World, acts: seq<Act>): Option<seq<Answer>>
    decreases |acts|
  {
    if acts == [] then Some([])
    else if !Enabled(w, acts[0]) then None
    else match Answers(Next(w, acts[0]), acts[1..])
      case None => None
      case Some(rest) => Some([Replies(w, acts[0])] + rest)
  }

  lemma {:induction false} AgreeingAnswers(w: World, t: Tables, acts: seq<Act>)
    requires Agree(w.t, t, w.now)
    ensures Answers(w, acts) == Answers(w.(t := t), acts)
    decreases |acts|
  {
    if acts != [] && Enabled(w, acts[0]) {
      StepAgrees(w, t, acts[0]);
      AgreeingAnswers(Next(w, acts[0]), Next(w.(t := t), acts[0]).t, acts[1..]);
    }
  }

  /** And what it leaves is exactly what is live: nothing expired stays behind. */
  lemma EvictionLeavesLive(w: World, name: string)
    ensures var t := Next(w, Evict).t;
            && (name in t.entries <==> name in w.t.entries && w.now - w.t.entries[name].cachedAt < 60000)
            && (name in t.unmanaged <==> name in w.t.unmanaged && w.now - w.t.unmanaged[name] < 300000)
            && (name in t.entries ==> t.entries[name] == w.t.entries[name])
            && (name in t.unmanaged ==> t.unmanaged[name] == w.t.unmanaged[name])
  {
  }

  /** A lookup that is answered is over; one that misses goes on to fetch. Time
      passes for everyone. */
  lemma LookupsEnd(w: World, a: Act)
    requires Enabled(w, a)
    ensures a.Probe? && Replies(w, a).Hit? ==> Next(w, a) == w.(ops := w.ops - {a.op})
    ensures a.Probe? && Replies(w, a).Quiet? ==>
              Next(w, a).ops == w.ops[a.op := ToFetch(w.ops[a.op].name, w.ops[a.op].forLog)]
    ensures a.Start? && Replies(w, a).Remembered? ==> Next(w, a) == w
    ensures a.Complete? ==> a.op !in Next(w, a).ops
    ensures a.Tick? ==> Next(w, a) == w.(now := a.t)
  {
  }

  /** Evicting now changes no later answer, whatever happens next. */
  lemma EvictionIsInvisible(w: World, acts: seq<Act>)
    ensures Answers(Next(w, Evict), acts) == Answers(w, acts)
  {
    EvictedAgrees(w.t, w.now);
    AgreeingAnswers(w, Evicted(w.t, w.now), acts);
  }
}
