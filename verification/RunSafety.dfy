/** What every interleaving of firings, crashes, broken leases and sweeps keeps,
    provided no live run outlasts the lease. */
module RunSafety {
  import opened Base
  import opened AutomationSteps
  import opened RunTables
  import opened RunProtocol

  // No live run is older than CLAIM_STALE_AFTER, counted from its stored started_at.
  ghost predicate Timely(w: World) {
    forall r :: r in w.procs && r in w.runs ==> w.now <= w.runs[r].startedAt + CLAIM_STALE_AFTER
  }

  // Past anything to do with the guard.
  predicate Past(pc: Pc) {
    pc.Recovered? || pc.Leaving?
  }

  // The same of the runs that are not: all that exclusion needs.
  ghost predicate GuardTimely(w: World) {
    forall r :: r in w.procs && r in w.runs && !Past(w.procs[r].pc) ==> w.now <= w.runs[r].startedAt + CLAIM_STALE_AFTER
  }

  // ── The invariant, piece by piece ──────────────────────────────────────────

  ghost predicate Ids(w: World) {
    (forall r :: r in w.runs ==> r < w.nextRun) && (forall r :: r in w.procs ==> r in w.runs)
  }

  ghost predicate Times(w: World) {
    && (forall r :: r in w.runs ==> w.runs[r].startedAt <= Stored(w.now))
    && (forall r :: r in w.procs && r in w.runs && w.procs[r].pc.Claiming? ==>
          w.runs[r].startedAt <= Stored(w.procs[r].pc.readAt) && w.procs[r].pc.readAt <= w.now)
  }

  // A held guard names a run of that automation, claimed no earlier than it started.
  ghost predicate Guards(w: World) {
    forall a :: a in w.autos && w.autos[a].guard.Held? ==>
      var g := w.autos[a].guard;
      g.run in w.runs && w.runs[g.run].automation == a && w.runs[g.run].startedAt <= g.since
  }

  ghost predicate Owns(w: World, r: int) {
    r in w.runs && w.runs[r].automation in w.autos
    && w.autos[w.runs[r].automation].guard.Held? && w.autos[w.runs[r].automation].guard.run == r
  }

  // Every live run past its claim still holds the guard.
  ghost predicate Owners(w: World) {
    forall r :: r in w.procs && HoldsGuard(w.procs[r].pc) ==> Owns(w, r)
  }

  ghost predicate Open(w: World) {
    forall r :: r in w.procs && r in w.runs && Undecided(w.procs[r].pc) ==> w.runs[r].status == InProgress
  }

  // A listed run is dead, and only the sweeps themselves can have settled it.
  ghost predicate ListedDead(w: World, e: Listed) {
    && e.run in w.runs && e.run !in w.procs && w.runs[e.run].automation == e.automation
    && (|| (w.runs[e.run].status == InProgress && w.runs[e.run].steps == e.steps)
        || (w.runs[e.run].status == Failed && w.runs[e.run].steps == FinishPending(e.steps, 0)))
  }

  ghost predicate Sweeps(w: World) {
    forall k, i :: k in w.sweeps && 0 <= i < |w.sweeps[k].todo| ==> ListedDead(w, w.sweeps[k].todo[i])
  }

  ghost predicate Settled(w: World) {
    forall r :: r in w.runs && w.runs[r].status != InProgress ==> NoPending(w.runs[r].steps)
  }

  ghost function InExecute(w: World, node: int): set<int> {
    set r | r in w.procs && w.procs[r].node == node && HoldsSlot(w.procs[r].pc)
  }

  // Held runner slots are exactly the runs inside execute, and never exceed the cap.
  ghost predicate SlotsCounted(w: World) {
    forall n :: SlotsOf(w.slots, n) == |InExecute(w, n)| <= MAX_CONCURRENT_RUNS
  }

  ghost predicate Inv(w: World) {
    && Ids(w) && Times(w) && Guards(w) && Owners(w) && Open(w) && Sweeps(w) && Settled(w)
    && SlotsCounted(w) && SlotsUnique(w.runs)
  }

  // A listed run has nothing more to do with its guard.
  ghost predicate ListedPast(w: World, e: Listed) {
    && e.run in w.runs && w.runs[e.run].automation == e.automation
    && (e.run in w.procs ==> Past(w.procs[e.run].pc))
  }

  ghost predicate SweepsPast(w: World) {
    forall k, i :: k in w.sweeps && 0 <= i < |w.sweeps[k].todo| ==> ListedPast(w, w.sweeps[k].todo[i])
  }

  // The part of it exclusion rests on.
  ghost predicate Core(w: World) {
    Ids(w) && Times(w) && Guards(w) && Owners(w) && SweepsPast(w)
  }

  lemma InvIsCore(w: World)
    requires Inv(w)
    ensures Core(w)
  {
    hide Times, Guards, Owners, Open, Settled, SlotsCounted, SlotsUnique;
    forall k, i | k in w.sweeps && 0 <= i < |w.sweeps[k].todo|
      ensures ListedPast(w, w.sweeps[k].todo[i])
    {
      assert ListedDead(w, w.sweeps[k].todo[i]);
    }
  }

  // ── Each step keeps each piece ─────────────────────────────────────────────

  predicate SameFiring(a: RunRow, b: RunRow) {
    a.automation == b.automation && a.slot == b.slot && a.startedAt == b.startedAt
  }

  // The step leaves r's process alone, moves it, or has just created it.
  lemma ProcAfter(w: World, a: Act, r: int)
    requires Enabled(w, a) && r in Next(w, a).procs
    ensures || (r in w.procs && Next(w, a).procs[r] == w.procs[r] && !(a.SkipEarly? && a.run == r)
                && (Moves(w, a).None? || Moves(w, a).value.0 != r))
            || (r in w.procs && Moves(w, a).Some? && Moves(w, a).value.0 == r
                && Next(w, a).procs[r] == w.procs[r].(pc := Moves(w, a).value.1, entered := w.now))
            || (a.Fire? && r == w.nextRun && r in Next(w, a).runs && Next(w, a).runs[r] == NewRun(a)
                && Next(w, a).procs[r] == NewProc(a, w.now))
  {
    hide Moves, NextAutos, NextSlots, NextSweeps, NewRun, StuckListing;
  }

  // The step writes r's row.
  ghost predicate Writes(w: World, a: Act, r: int)
    requires Enabled(w, a)
  {
    || ((a.SkipEarly? || a.RecordEnd? || a.Persist? || a.Finish?) && a.run == r)
    || (a.SweepUpdate? && w.sweeps[a.sweep].todo[0].run == r)
  }

  lemma RowAfter(w: World, a: Act, r: int)
    requires Ids(w) && Enabled(w, a) && r in w.runs
    ensures r in Next(w, a).runs && SameFiring(w.runs[r], Next(w, a).runs[r])
    ensures Next(w, a).runs[r] == w.runs[r] || Writes(w, a, r)
    ensures a.Persist? ==> Next(w, a).runs[r].status == w.runs[r].status
  {
    hide NextAutos, NextProcs, NextSlots, NextSweeps, NewRun, StuckListing, FinishPending;
  }

  lemma NewRow(w: World, a: Act, r: int)
    requires Enabled(w, a) && r in Next(w, a).runs && r !in w.runs
    ensures a.Fire? && r == w.nextRun && Next(w, a).runs[r] == NewRun(a)
  {
    hide NextAutos, NextProcs, NextSlots, NextSweeps, NewRun, StuckListing, FinishPending;
  }

  lemma CountersRise(w: World, a: Act)
    requires Enabled(w, a)
    ensures w.nextRun <= Next(w, a).nextRun && w.now <= Next(w, a).now
    ensures Next(w, a).runs != w.runs && a.Fire? ==> Next(w, a).nextRun == w.nextRun + 1
  {
    hide NextAutos, NextProcs, NextRuns, NextSlots, NextSweeps, StuckListing;
  }

  // Run rows are only added, and keep what identifies them.
  lemma RowsPersist(w: World, a: Act)
    requires Ids(w) && Enabled(w, a)
    ensures var w' := Next(w, a);
            && (forall r :: r in w.runs ==> r in w'.runs && SameFiring(w.runs[r], w'.runs[r]))
            && (forall r :: r in w'.runs && r !in w.runs ==> r == w.nextRun && a.Fire?)
            && w.nextRun <= w'.nextRun && w.now <= w'.now
  {
    hide Next, Enabled, Ids;
    CountersRise(w, a);
    forall r | r in w.runs
      ensures r in Next(w, a).runs && SameFiring(w.runs[r], Next(w, a).runs[r])
    {
      RowAfter(w, a, r);
    }
    forall r | r in Next(w, a).runs && r !in w.runs
      ensures r == w.nextRun && a.Fire?
    {
      NewRow(w, a, r);
    }
  }

  lemma IdsKept(w: World, a: Act)
    requires Ids(w) && Enabled(w, a)
    ensures Ids(Next(w, a))
  {
    hide Next, Enabled;
    RowsPersist(w, a);
    CountersRise(w, a);
    var w' := Next(w, a);
    forall r | r in w'.runs
      ensures r < w'.nextRun
    {
      if r !in w.runs {
        NewRow(w, a, r);
        assert w'.runs != w.runs;
      }
    }
    forall r | r in w'.procs
      ensures r in w'.runs
    {
      ProcAfter(w, a, r);
    }
  }

  lemma StoredIsMonotone(t: int, t': int)
    requires t <= t'
    ensures Stored(t) <= Stored(t')
  {
  }

  lemma StartsArePast(w: World, a: Act, r: int)
    requires Ids(w) && Times(w) && Enabled(w, a) && r in Next(w, a).runs
    ensures Next(w, a).runs[r].startedAt <= Stored(Next(w, a).now)
  {
    hide NextAutos, NextProcs, NextSlots, NextSweeps;
    RowsPersist(w, a);
    StoredIsMonotone(w.now, Next(w, a).now);
    if r !in w.runs {
      StoredIsMonotone(a.readAt, w.now);
    }
  }

  lemma ClaimersAreLate(w: World, a: Act, r: int)
    requires Ids(w) && Times(w) && Enabled(w, a) && r in Next(w, a).procs && Next(w, a).procs[r].pc.Claiming?
    ensures r in w.procs && (w.procs[r].pc == Next(w, a).procs[r].pc || Next(w, a).procs[r].pc == Claiming(w.now))
  {
    ProcAfter(w, a, r);
    hide Next, Moves, Enabled;
  }

  lemma TimesKept(w: World, a: Act)
    requires Ids(w) && Times(w) && Enabled(w, a)
    ensures Times(Next(w, a))
  {
    hide NextAutos, NextRuns, NextProcs, NextSlots, NextSweeps;
    var w' := Next(w, a);
    RowsPersist(w, a);
    forall r | r in w'.runs
      ensures w'.runs[r].startedAt <= Stored(w'.now)
    {
      StartsArePast(w, a, r);
    }
    forall r | r in w'.procs && r in w'.runs && w'.procs[r].pc.Claiming?
      ensures w'.runs[r].startedAt <= Stored(w'.procs[r].pc.readAt) && w'.procs[r].pc.readAt <= w'.now
    {
      ClaimersAreLate(w, a, r);
    }
  }

  lemma SlotKeysKept(w: World, a: Act)
    requires Inv(w) && Enabled(w, a)
    ensures SlotsUnique(Next(w, a).runs)
  {
    hide NextAutos, NextProcs, NextSlots, NextSweeps;
    RowsPersist(w, a);
  }

  lemma OpenOne(w: World, a: Act, r: int)
    requires Ids(w) && Open(w) && Sweeps(w) && Enabled(w, a)
    requires r in Next(w, a).procs && r in Next(w, a).runs && Undecided(Next(w, a).procs[r].pc)
    ensures Next(w, a).runs[r].status == InProgress
  {
    ProcAfter(w, a, r);
    if r in w.procs {
      assert r in w.runs;
      RowAfter(w, a, r);
      assert a.SweepUpdate? ==> ListedDead(w, w.sweeps[a.sweep].todo[0]);
    }
    hide Next, Sweeps, StuckListing, Stored, Claimable, PendingSteps;
  }

  lemma OpenKept(w: World, a: Act)
    requires Ids(w) && Open(w) && Sweeps(w) && Enabled(w, a)
    ensures Open(Next(w, a))
  {
    hide Next, Enabled, Sweeps;
    var w' := Next(w, a);
    forall r | r in w'.procs && r in w'.runs && Undecided(w'.procs[r].pc)
      ensures w'.runs[r].status == InProgress
    {
      OpenOne(w, a, r);
    }
  }

  lemma SettledKept(w: World, a: Act)
    requires Open(w) && Settled(w) && Enabled(w, a)
    ensures Settled(Next(w, a))
  {
    hide NextAutos, NextProcs, NextSlots, NextSweeps, StuckListing, Stored;
  }

  // A claim old enough to break belongs to a run that is no longer live.
  lemma BrokenClaimIsDead(w: World, run: int)
    requires Inv(w) && Timely(w) && At(w, run) && w.procs[run].pc.Claiming?
    requires var a := w.runs[run].automation;
             && a in w.autos && w.autos[a].guard.Held?
             && w.autos[a].guard.since < w.procs[run].pc.readAt - CLAIM_STALE_AFTER
    ensures w.autos[w.runs[run].automation].guard.run !in w.procs
  {
  }

  // ... or, where only the runs about the guard are known to be in time, to one
  // that is past it.
  lemma BrokenClaimIsPast(w: World, run: int)
    requires Core(w) && GuardTimely(w) && At(w, run) && w.procs[run].pc.Claiming?
    requires var a := w.runs[run].automation;
             && a in w.autos && w.autos[a].guard.Held?
             && w.autos[a].guard.since < w.procs[run].pc.readAt - CLAIM_STALE_AFTER
    ensures var g := w.autos[w.runs[run].automation].guard; g.run in w.procs ==> Past(w.procs[g.run].pc)
  {
  }

  lemma ClaimKeepsOwners(w: World, run: int, since: int)
    requires Core(w) && GuardTimely(w) && Enabled(w, TryClaim(run, since))
    ensures var w' := Next(w, TryClaim(run, since)); Guards(w') && Owners(w')
  {
    StoredIsMonotone(w.procs[run].pc.readAt, since);
    var a := w.runs[run].automation;
    var staleBefore := w.procs[run].pc.readAt - CLAIM_STALE_AFTER;
    if Claimable(w.autos, a, staleBefore) {
      if w.autos[a].guard.Held? {
        BrokenClaimIsPast(w, run);
      }
      forall r | r in w.procs && HoldsGuard(w.procs[r].pc)
        ensures w.runs[r].automation != a
      {
        assert Owns(w, r);
      }
    }
  }

  // Dropping run's own guard leaves everyone else's in place.
  lemma ReleaseKeepsOwners(w: World, automation: int, run: int)
    requires Core(w) && run in w.runs
    ensures var w' := w.(autos := Release(w.autos, automation, run));
            Guards(w') && forall r :: r in w.procs && r != run && HoldsGuard(w.procs[r].pc) ==> Owns(w', r)
  {
    var w' := w.(autos := Release(w.autos, automation, run));
    forall r | r in w.procs && r != run && HoldsGuard(w.procs[r].pc)
      ensures Owns(w', r)
    {
      assert Owns(w, r);
    }
  }

  // Everything but a claim or a release leaves the guards alone.
  predicate Quiet(a: Act) {
    !a.TryClaim? && !a.ClaimFails? && !a.DropGuard? && !a.SweepRelease?
  }

  lemma QuietGuards(w: World, a: Act)
    requires Enabled(w, a) && Quiet(a)
    ensures forall k :: k in w.autos ==> k in Next(w, a).autos && Next(w, a).autos[k].guard == w.autos[k].guard
    ensures forall k :: k in Next(w, a).autos && k !in w.autos ==> Next(w, a).autos[k].guard.Free?
  {
    hide NextRuns, NextProcs, NextSlots, NextSweeps, StuckListing;
  }

  lemma QuietHolders(w: World, a: Act, r: int)
    requires Enabled(w, a) && Quiet(a) && r in Next(w, a).procs && HoldsGuard(Next(w, a).procs[r].pc)
    ensures r in w.procs && HoldsGuard(w.procs[r].pc)
  {
    ProcAfter(w, a, r);
    hide Next, StuckListing;
  }

  lemma QuietKeepsOwners(w: World, a: Act)
    requires Core(w) && Enabled(w, a) && Quiet(a)
    ensures Guards(Next(w, a)) && Owners(Next(w, a))
  {
    hide Next, Enabled, HoldsGuard, Times, SweepsPast;
    RowsPersist(w, a);
    QuietGuards(w, a);
    var w' := Next(w, a);
    forall r | r in w'.procs && HoldsGuard(w'.procs[r].pc)
      ensures Owns(w', r)
    {
      QuietHolders(w, a, r);
      assert Owns(w, r);
    }
  }

  // A claim that landed though it errored leaves the guard with a run that
  // will not use it.
  lemma FailedClaimKeepsOwners(w: World, a: Act)
    requires Core(w) && GuardTimely(w) && Enabled(w, a) && a.ClaimFails?
    ensures Guards(Next(w, a)) && Owners(Next(w, a))
  {
    hide NextSlots, NextSweeps, Times, SweepsPast;
    var w' := Next(w, a);
    assert w'.runs == w.runs;
    if a.applied {
      var claimed := Next(w, TryClaim(a.run, a.since));
      ClaimKeepsOwners(w, a.run, a.since);
      assert w'.autos == claimed.autos;
      forall r | r in w'.procs && HoldsGuard(w'.procs[r].pc)
        ensures Owns(w', r)
      {
        assert r in claimed.procs && HoldsGuard(claimed.procs[r].pc);
        assert Owns(claimed, r);
      }
    } else {
      forall r | r in w'.procs && HoldsGuard(w'.procs[r].pc)
        ensures Owns(w', r)
      {
        assert Owns(w, r);
      }
    }
  }

  lemma ReleasesKeepOwners(w: World, a: Act)
    requires Core(w) && GuardTimely(w) && Enabled(w, a) && (a.DropGuard? || a.SweepRelease?)
    ensures Guards(Next(w, a)) && Owners(Next(w, a))
  {
    hide NextSlots, NextSweeps, Times;
    if a.DropGuard? {
      ReleaseKeepsOwners(w, w.runs[a.run].automation, a.run);
    } else {
      var e := w.sweeps[a.sweep].todo[0];
      assert ListedPast(w, e);
      ReleaseKeepsOwners(w, e.automation, e.run);
    }
  }

  lemma GuardsKept(w: World, a: Act)
    requires Core(w) && GuardTimely(w) && Enabled(w, a)
    ensures Guards(Next(w, a)) && Owners(Next(w, a))
  {
    hide Next, Core, GuardTimely, Guards, Owners;
    match a
    case TryClaim(run, since) => ClaimKeepsOwners(w, run, since);
    case ClaimFails(run, since, applied) => FailedClaimKeepsOwners(w, a);
    case DropGuard(run, ok) => ReleasesKeepOwners(w, a);
    case SweepRelease(sweep, ok) => ReleasesKeepOwners(w, a);
    case _ => QuietKeepsOwners(w, a);
  }

  // A dead run stays dead, and only a sweep writes its row.
  lemma DeadStaysDead(w: World, a: Act, r: int)
    requires Ids(w) && Enabled(w, a) && r in w.runs && r !in w.procs
    ensures r in Next(w, a).runs && r !in Next(w, a).procs
    ensures Next(w, a).runs[r] == w.runs[r] || (a.SweepUpdate? && w.sweeps[a.sweep].todo[0].run == r)
  {
    RowAfter(w, a, r);
    if r in Next(w, a).procs {
      ProcAfter(w, a, r);
    }
    hide Next, Moves, StuckListing;
  }

  lemma SweepWrites(w: World, a: Act)
    requires Enabled(w, a) && a.SweepUpdate? && w.sweeps[a.sweep].todo[0].run in w.runs
    ensures var e := w.sweeps[a.sweep].todo[0];
            && e.run in Next(w, a).runs
            && Next(w, a).runs[e.run] ==
               if a.ok then w.runs[e.run].(status := Failed, steps := FinishPending(e.steps, 0)) else w.runs[e.run]
  {
    hide FinishPending;
  }

  // What a step may do to a run no process owns.
  lemma DeadRunsKept(w: World, a: Act, e: Listed)
    requires Inv(w) && Enabled(w, a) && ListedDead(w, e)
    ensures ListedDead(Next(w, a), e)
  {
    DeadStaysDead(w, a, e.run);
    if a.SweepUpdate? && w.sweeps[a.sweep].todo[0].run == e.run {
      assert ListedDead(w, w.sweeps[a.sweep].todo[0]);
      SweepWrites(w, a);
      FinishPendingIsIdempotent(e.steps, 0);
    }
    hide Next, Inv, FinishPending;
  }

  lemma SweepsKept(w: World, a: Act)
    requires Inv(w) && Timely(w) && Enabled(w, a)
    ensures Sweeps(Next(w, a))
  {
    hide Next, Inv, ListedDead;
    var w' := Next(w, a);
    forall k, i | k in w'.sweeps && 0 <= i < |w'.sweeps[k].todo|
      ensures ListedDead(w', w'.sweeps[k].todo[i])
    {
      var e := w'.sweeps[k].todo[i];
      assert ListedDead(w, e) by {
        ListingIsDead(w, a, k, i);
      }
      DeadRunsKept(w, a, e);
    }
  }

  // Whatever a sweep holds after a step, it held or has just read from dead runs.
  lemma ListingIsDead(w: World, a: Act, k: int, i: nat)
    requires Inv(w) && Timely(w) && Enabled(w, a)
    requires k in Next(w, a).sweeps && i < |Next(w, a).sweeps[k].todo|
    ensures ListedDead(w, Next(w, a).sweeps[k].todo[i])
  {
    hide NextAutos, NextSlots, NextProcs, NextRuns, Stored, PendingSteps;
    if a.SweepList? && k == a.sweep {
      assert a.listed[i] in StuckRuns(w.runs, a.readAt - CLAIM_STALE_AFTER);
    } else if a.SweepRelease? && k == a.sweep {
      assert ListedDead(w, w.sweeps[k].todo[i + 1]);
    } else {
      assert ListedDead(w, w.sweeps[k].todo[i]);
    }
  }

  // Only these steps change who is inside execute on a node.
  lemma SlotGranted(w: World, a: Act, n: int)
    requires Ids(w) && Enabled(w, a) && a.TakeSlot? && n == w.procs[a.run].node
    ensures InExecute(Next(w, a), n) == InExecute(w, n) + {a.run} && a.run !in InExecute(w, n)
    ensures SlotsOf(Next(w, a).slots, n) == SlotsOf(w.slots, n) + 1 <= MAX_CONCURRENT_RUNS
  {
    hide NextAutos, NextRuns, NextSweeps;
  }

  lemma SlotReturned(w: World, a: Act, n: int)
    requires SlotsCounted(w) && Enabled(w, a) && a.Leave? && n == w.procs[a.run].node
    ensures InExecute(Next(w, a), n) == InExecute(w, n) - {a.run} && a.run in InExecute(w, n)
    ensures SlotsOf(Next(w, a).slots, n) == SlotsOf(w.slots, n) - 1
  {
    hide NextAutos, NextRuns, NextSweeps;
    assert a.run in InExecute(w, n);
    assert SlotsOf(w.slots, n) == |InExecute(w, n)|;
  }

  lemma SlotsCleared(w: World, a: Act)
    requires Enabled(w, a) && a.Crash?
    ensures InExecute(Next(w, a), a.node) == {} && SlotsOf(Next(w, a).slots, a.node) == 0
  {
    hide NextAutos, NextRuns, NextSweeps;
  }

  lemma SlotsKept(w: World, a: Act)
    requires Inv(w) && Enabled(w, a)
    ensures SlotsCounted(Next(w, a))
  {
    hide Next, Ids, Times, Guards, Owners, Open, Sweeps, Settled, SlotsUnique, InExecute, SlotsOf;
    var w' := Next(w, a);
    forall n
      ensures SlotsOf(w'.slots, n) == |InExecute(w', n)| <= MAX_CONCURRENT_RUNS
    {
      if a.TakeSlot? && n == w.procs[a.run].node {
        SlotGranted(w, a, n);
      } else if a.Leave? && n == w.procs[a.run].node {
        SlotReturned(w, a, n);
      } else if a.Crash? && n == a.node {
        SlotsCleared(w, a);
      } else {
        SameInExecute(w, a, n);
      }
    }
  }

  lemma SameSlots(w: World, a: Act, n: int)
    requires Enabled(w, a)
    requires a.TakeSlot? || a.Leave? ==> n != w.procs[a.run].node
    requires a.Crash? ==> n != a.node
    ensures SlotsOf(Next(w, a).slots, n) == SlotsOf(w.slots, n)
  {
    hide NextAutos, NextRuns, NextProcs, NextSweeps, StuckListing;
  }

  // A process elsewhere is neither taken away nor let in.
  lemma SameProc(w: World, a: Act, n: int, r: int)
    requires Ids(w) && Enabled(w, a)
    requires a.TakeSlot? || a.Leave? ==> n != w.procs[a.run].node
    requires a.Crash? ==> n != a.node
    ensures r in InExecute(Next(w, a), n) <==> r in InExecute(w, n)
  {
    if r in Next(w, a).procs {
      ProcAfter(w, a, r);
    } else if r in w.procs {
      ProcGone(w, a, r);
    }
    hide Next, StuckListing, Claimable;
  }

  lemma ProcGone(w: World, a: Act, r: int)
    requires Enabled(w, a) && r in w.procs && r !in Next(w, a).procs
    ensures ((a.SkipEarly? || a.Leave?) && a.run == r) || (a.Crash? && a.node == w.procs[r].node)
  {
    hide NextAutos, NextRuns, NextSlots, NextSweeps, Moves, StuckListing;
  }

  lemma SameInExecute(w: World, a: Act, n: int)
    requires Ids(w) && Enabled(w, a)
    requires a.TakeSlot? || a.Leave? ==> n != w.procs[a.run].node
    requires a.Crash? ==> n != a.node
    ensures InExecute(Next(w, a), n) == InExecute(w, n) && SlotsOf(Next(w, a).slots, n) == SlotsOf(w.slots, n)
  {
    hide Next, InExecute;
    SameSlots(w, a, n);
    forall r
      ensures r in InExecute(Next(w, a), n) <==> r in InExecute(w, n)
    {
      SameProc(w, a, n, r);
    }
  }

  lemma StepKeepsInv(w: World, a: Act)
    requires Inv(w) && Timely(w) && Enabled(w, a)
    ensures Inv(Next(w, a))
  {
    IdsKept(w, a);
    TimesKept(w, a);
    SlotKeysKept(w, a);
    OpenKept(w, a);
    SettledKept(w, a);
    InvIsCore(w);
    GuardsKept(w, a);
    SweepsKept(w, a);
    SlotsKept(w, a);
  }

  // ── The core on its own ────────────────────────────────────────────────────

  // Once past the guard, a run only leaves.
  lemma PastStaysPast(w: World, a: Act, e: Listed)
    requires Ids(w) && Enabled(w, a) && ListedPast(w, e)
    ensures ListedPast(Next(w, a), e)
  {
    RowAfter(w, a, e.run);
    if e.run in Next(w, a).procs {
      ProcAfter(w, a, e.run);
    }
    hide Next, StuckListing, Claimable;
  }

  // Whatever a sweep holds after a step, it held or has just read from runs past
  // their guard.
  lemma ListingIsPast(w: World, a: Act, k: int, i: nat)
    requires Core(w) && GuardTimely(w) && Enabled(w, a)
    requires k in Next(w, a).sweeps && i < |Next(w, a).sweeps[k].todo|
    ensures ListedPast(w, Next(w, a).sweeps[k].todo[i])
  {
    hide NextAutos, NextSlots, NextProcs, NextRuns, Stored, PendingSteps;
    if a.SweepList? && k == a.sweep {
      assert a.listed[i] in StuckRuns(w.runs, a.readAt - CLAIM_STALE_AFTER);
    } else if a.SweepRelease? && k == a.sweep {
      assert ListedPast(w, w.sweeps[k].todo[i + 1]);
    } else {
      assert ListedPast(w, w.sweeps[k].todo[i]);
    }
  }

  lemma SweepsPastKept(w: World, a: Act)
    requires Core(w) && GuardTimely(w) && Enabled(w, a)
    ensures SweepsPast(Next(w, a))
  {
    hide Next, Enabled, ListedPast, Times, Guards, Owners;
    var w' := Next(w, a);
    forall k, i | k in w'.sweeps && 0 <= i < |w'.sweeps[k].todo|
      ensures ListedPast(w', w'.sweeps[k].todo[i])
    {
      ListingIsPast(w, a, k, i);
      PastStaysPast(w, a, w'.sweeps[k].todo[i]);
    }
  }

  lemma StepKeepsCore(w: World, a: Act)
    requires Core(w) && GuardTimely(w) && Enabled(w, a)
    ensures Core(Next(w, a))
  {
    hide Next, Enabled, GuardTimely;
    IdsKept(w, a);
    TimesKept(w, a);
    GuardsKept(w, a);
    SweepsPastKept(w, a);
  }
}
