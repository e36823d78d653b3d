/** A worker's full report against every instance it hosts: which container
    belongs to which instance, which containers and volumes belong to none, and
    the sync as a whole (database_handlers.go). */
module DatabaseSync {
  import opened Base
  import opened DatabaseLifecycle

  datatype Instance = Instance(id: int, containerName: string, volumeName: string)

  // One reported container; instanceId is 0 when it carries no label.
  datatype Observed = Observed(containerName: string, instanceId: int, obs: Obs)

  predicate Labelled(o: Observed, i: Instance) {
    o.instanceId == i.id
  }

  predicate NamedFor(o: Observed, i: Instance) {
    o.instanceId == 0 && o.containerName == i.containerName
  }

  // What matchObservedDatabase returns: the first container labelled for the
  // instance, or failing that the first unlabelled one of its name.
  ghost predicate IsMatch(i: Instance, observed: seq<Observed>, found: Option<nat>) {
    match found
    case None => forall k :: 0 <= k < |observed| ==> !Labelled(observed[k], i) && !NamedFor(observed[k], i)
    case Some(n) =>
      n < |observed| &&
      if Labelled(observed[n], i) then forall k :: 0 <= k < n ==> !Labelled(observed[k], i)
      else
        && NamedFor(observed[n], i)
        && (forall k :: 0 <= k < |observed| ==> !Labelled(observed[k], i))
        && (forall k :: 0 <= k < n ==> !NamedFor(observed[k], i))
  }

  method MatchObservedDatabase(i: Instance, observed: seq<Observed>) returns (found: Option<nat>)
    ensures IsMatch(i, observed, found)
  {
    for k := 0 to |observed|
      invariant forall j :: 0 <= j < k ==> !Labelled(observed[j], i)
    {
      if observed[k].instanceId == i.id {
        return Some(k);
      }
    }
    for k := 0 to |observed|
      invariant forall j :: 0 <= j < k ==> !NamedFor(observed[j], i)
    {
      if observed[k].instanceId == 0 && observed[k].containerName == i.containerName {
        return Some(k);
      }
    }
    found := None;
  }

  // The instances of one worker, as the database keeps them.
  ghost predicate WellFormed(instances: seq<Instance>) {
    && (forall a :: 0 <= a < |instances| ==> instances[a].id != 0)
    && (forall a, b :: 0 <= a < b < |instances| ==>
          instances[a].id != instances[b].id && instances[a].containerName != instances[b].containerName)
  }

  /** No container is matched to two instances, and an instance never gets a
      container labelled for another. */
  lemma MatchesAreExclusive(instances: seq<Instance>, observed: seq<Observed>, a: nat, b: nat, m: Option<nat>,
                            m': Option<nat>)
    requires WellFormed(instances) && a < |instances| && b < |instances| && a != b
    requires IsMatch(instances[a], observed, m) && IsMatch(instances[b], observed, m')
    ensures m.Some? ==> m != m'
    ensures m.Some? ==> observed[m.value].instanceId == 0 || observed[m.value].instanceId == instances[a].id
  {
    assert a < b || b < a;
  }

  // Some instance owns the container: by label, or unlabelled by name.
  ghost predicate Owned(instances: seq<Instance>, o: Observed) {
    exists a :: 0 <= a < |instances| && (Labelled(o, instances[a]) || NamedFor(o, instances[a]))
  }

  ghost predicate VolumeOwned(instances: seq<Instance>, volume: string) {
    exists a :: 0 <= a < |instances| && instances[a].volumeName == volume
  }

  // The members of xs the predicate keeps, in order.
  ghost function Kept<T(!new)>(xs: seq<T>, keep: T -> bool): seq<T> {
    if xs == [] then []
    else Kept(xs[..|xs| - 1], keep) + if keep(xs[|xs| - 1]) then [xs[|xs| - 1]] else []
  }

  lemma {:induction false} KeptMembers<T(!new)>(xs: seq<T>, keep: T -> bool, x: T)
    ensures x in Kept(xs, keep) <==> x in xs && keep(x)
  {
    if xs != [] {
      KeptMembers(xs[..|xs| - 1], keep, x);
      assert xs == xs[..|xs| - 1] + [xs[|xs| - 1]];
    }
  }

  datatype Orphans = Orphans(containers: seq<Observed>, volumes: seq<string>, volumesKnown: bool)

  /** findDatabaseOrphans: in report order, exactly the containers and volumes no
      instance owns. */
  method FindDatabaseOrphans(instances: seq<Instance>, observed: seq<Observed>, volumes: Option<seq<string>>)
    returns (out: Orphans)
    ensures out.containers == Kept(observed, o => !Owned(instances, o))
    ensures out.volumesKnown == volumes.Some?
    ensures out.volumes == if volumes.Some? then Kept(volumes.value, v => !VolumeOwned(instances, v)) else []
    // a container carrying an instance's id, or none and an instance's name, is no orphan
    ensures forall o :: o in out.containers <==>
              && o in observed
              && forall a :: 0 <= a < |instances| ==>
                   && instances[a].id != o.instanceId
                   && (o.instanceId == 0 ==> instances[a].containerName != o.containerName)
    // nor is a volume some instance names
    ensures forall v :: v in out.volumes <==>
              && volumes.Some? && v in volumes.value
              && forall a :: 0 <= a < |instances| ==> instances[a].volumeName != v
  {
    var byId, byName, byVolume := {}, {}, {};
    for a := 0 to |instances|
      invariant forall id :: id in byId <==> exists k :: 0 <= k < a && instances[k].id == id
      invariant forall n :: n in byName <==> exists k :: 0 <= k < a && instances[k].containerName == n
      invariant forall v :: v in byVolume <==> exists k :: 0 <= k < a && instances[k].volumeName == v
    {
      byId, byName := byId + {instances[a].id}, byName + {instances[a].containerName};
      byVolume := byVolume + {instances[a].volumeName};
    }
    var containers := [];
    for k := 0 to |observed|
      invariant containers == Kept(observed[..k], o => !Owned(instances, o))
    {
      var o := observed[k];
      var owned := o.instanceId in byId || (o.instanceId == 0 && o.containerName in byName);
      assert owned <==> Owned(instances, o);
      assert observed[..k + 1][..k] == observed[..k];
      if !owned {
        containers := containers + [o];
      }
    }
    assert observed[..|observed|] == observed;
    var orphaned := [];
    if volumes.Some? {
      var vs := volumes.value;
      for k := 0 to |vs|
        invariant orphaned == Kept(vs[..k], v => !VolumeOwned(instances, v))
      {
        assert vs[..k + 1][..k] == vs[..k];
        if vs[k] !in byVolume {
          orphaned := orphaned + [vs[k]];
        }
      }
      assert vs[..|vs|] == vs;
    }
    forall o
      ensures o in containers <==> o in observed && !Owned(instances, o)
    {
      KeptMembers(observed, o => !Owned(instances, o), o);
    }
    if volumes.Some? {
      forall v
        ensures v in orphaned <==> v in volumes.value && !VolumeOwned(instances, v)
      {
        KeptMembers(volumes.value, v => !VolumeOwned(instances, v), v);
      }
    }
    out := Orphans(containers, orphaned, volumes.Some?);
  }

  /** Matching and orphans agree: a matched container is never an orphan, and an
      orphan is matched by no instance. */
  lemma MatchedIsNoOrphan(instances: seq<Instance>, observed: seq<Observed>, a: nat, found: Option<nat>)
    requires a < |instances| && IsMatch(instances[a], observed, found) && found.Some?
    ensures observed[found.value] !in Kept(observed, o => !Owned(instances, o))
  {
    KeptMembers(observed, o => !Owned(instances, o), observed[found.value]);
  }

  /** A container that is no orphan has an owner, and the owner is matched: to
      it, to an earlier one with the same claim, or, if it goes by name only, to
      one carrying the owner's label. */
  lemma OwnedMeansOwnerMatched(instances: seq<Instance>, observed: seq<Observed>, k: nat, matches: seq<Option<nat>>)
    returns (a: nat)
    requires k < |observed| && observed[k] !in Kept(observed, o => !Owned(instances, o))
    requires |matches| == |instances|
    requires forall a :: 0 <= a < |instances| ==> IsMatch(instances[a], observed, matches[a])
    ensures a < |instances| && matches[a].Some? && matches[a].value < |observed|
    ensures Labelled(observed[k], instances[a]) || NamedFor(observed[k], instances[a])
    ensures matches[a].value > k ==>
              !Labelled(observed[k], instances[a]) && Labelled(observed[matches[a].value], instances[a])
  {
    KeptMembers(observed, o => !Owned(instances, o), observed[k]);
    a :| 0 <= a < |instances| && (Labelled(observed[k], instances[a]) || NamedFor(observed[k], instances[a]));
    assert IsMatch(instances[a], observed, matches[a]);
  }

  // ── The sync of a whole worker ─────────────────────────────────────────────

  /** The match is determined by the report alone. */
  lemma MatchIsUnique(i: Instance, observed: seq<Observed>, m: Option<nat>, m': Option<nat>)
    requires IsMatch(i, observed, m) && IsMatch(i, observed, m')
    ensures m == m'
  {
  }

  function ReportOf(observed: seq<Observed>, found: Option<nat>): Option<Obs> {
    if found.Some? && found.value < |observed| then Some(observed[found.value].obs) else None
  }

  ghost predicate AllMatched(instances: seq<Instance>, observed: seq<Observed>, matches: seq<Option<nat>>) {
    |matches| == |instances| && forall a :: 0 <= a < |instances| ==> IsMatch(instances[a], observed, matches[a])
  }

  // Every row of the worker moved by its own container's report.
  function SyncAll(rows: seq<Db>, observed: seq<Observed>, matches: seq<Option<nat>>, now: int): seq<Db>
    requires |rows| == |matches|
  {
    seq(|rows|, a requires 0 <= a < |rows| => Sync(rows[a], ReportOf(observed, matches[a]), now))
  }

  class Worker {
    const instances: seq<Instance>
    var rows: seq<Db>

    ghost predicate Valid()
      reads this
    {
      |rows| == |instances|
    }

    constructor (instances: seq<Instance>, rows: seq<Db>)
      requires |rows| == |instances|
      ensures Valid() && this.instances == instances && this.rows == rows
    {
      this.instances, this.rows := instances, rows;
    }

    method HandleDbSync(observed: seq<Observed>, now: int) returns (ghost matches: seq<Option<nat>>)
      requires Valid()
      modifies this`rows
      ensures Valid() && AllMatched(instances, observed, matches)
      ensures rows == SyncAll(old(rows), observed, matches, now)
    {
      matches := [];
      for a := 0 to |instances|
        invariant |rows| == |instances| && |matches| == a
        invariant forall k :: 0 <= k < a ==> IsMatch(instances[k], observed, matches[k])
        invariant forall k :: 0 <= k < a ==> rows[k] == Sync(old(rows)[k], ReportOf(observed, matches[k]), now)
        invariant forall k :: a <= k < |rows| ==> rows[k] == old(rows)[k]
      {
        var found := MatchObservedDatabase(instances[a], observed);
        rows := rows[a := Sync(rows[a], ReportOf(observed, found), now)];
        matches := matches + [found];
      }
    }
  }

  /** The whole sync is idempotent: handling the same report twice leaves every
      row, and every event count, as once. */
  lemma FleetSyncIsIdempotent(instances: seq<Instance>, rows: seq<Db>, observed: seq<Observed>,
                              m: seq<Option<nat>>, m': seq<Option<nat>>, now: int, later: int)
    requires |rows| == |instances| && AllMatched(instances, observed, m) && AllMatched(instances, observed, m')
    ensures SyncAll(SyncAll(rows, observed, m, now), observed, m', later) == SyncAll(rows, observed, m, now)
  {
    var once := SyncAll(rows, observed, m, now);
    var twice := SyncAll(once, observed, m', later);
    forall a | 0 <= a < |rows|
      ensures twice[a] == once[a]
    {
      MatchIsUnique(instances[a], observed, m[a], m'[a]);
      SyncIsIdempotent(rows[a], ReportOf(observed, m[a]), now, later);
    }
  }
}
