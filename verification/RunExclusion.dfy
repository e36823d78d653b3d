/** Mutual exclusion from the speed of the store alone, and exactly how fast that
    has to be. */
module RunExclusion {
  import opened Base
  import opened AutomationSteps
  import opened RunTables
  import opened RunProtocol
  import opened RunSafety
  import opened RunHistories
  import opened RunTiming

  // No automation has two runs past their claim, and each of them holds the guard.
  ghost predicate Exclusive(w: World) {
    && (forall r :: r in w.procs && HoldsGuard(w.procs[r].pc) ==> Owns(w, r))
    && (forall r, r' :: r in w.procs && r' in w.procs && Contend(w, r, r') ==> r == r')
  }

  ghost predicate Contend(w: World, r: int, r': int)
    requires r in w.procs && r' in w.procs
  {
    && HoldsGuard(w.procs[r].pc) && HoldsGuard(w.procs[r'].pc)
    && r in w.runs && r' in w.runs && w.runs[r].automation == w.runs[r'].automation
  }

  // ── Fast enough ────────────────────────────────────────────────────────────

  // Whatever may panic: up to its release a run is no older than one without.
  lemma GuardAge(w: World, r: int, d: nat, panics: bool)
    requires r in w.procs && ProcTimed(w, r, d, panics) && !Past(w.procs[r].pc)
    ensures w.now <= w.procs[r].firedAt + RunBound(d)
  {
  }

  lemma TimedIsGuardTimely(w: World, d: nat, panics: bool)
    requires Timed(w, d, panics) && d <= SLOWEST_CALL
    ensures GuardTimely(w)
  {
    hide Allowance, Spent;
    forall r | r in w.procs && r in w.runs && !Past(w.procs[r].pc)
      ensures w.now <= w.runs[r].startedAt + CLAIM_STALE_AFTER
    {
      GuardAge(w, r, d, panics);
    }
  }

  lemma {:induction false} CoreHolds(tr: seq<World>, acts: seq<Act>, n: nat, d: nat, panics: bool)
    requires PromptHistory(tr, acts, d, panics) && d <= SLOWEST_CALL && n < |tr|
    ensures Core(tr[n])
  {
    hide Next, Enabled, Prompt;
    if n > 0 {
      CoreHolds(tr, acts, n - 1, d, panics);
      TimedHolds(tr, acts, n - 1, d, panics);
      TimedIsGuardTimely(tr[n - 1], d, panics);
      StepKeepsCore(tr[n - 1], acts[n - 1]);
    }
  }

  lemma CoreIsExclusive(w: World)
    requires Core(w)
    ensures Exclusive(w)
  {
    hide Times, SweepsPast, Guards;
    forall r, r' | r in w.procs && r' in w.procs && Contend(w, r, r')
      ensures r == r'
    {
      assert Owns(w, r) && Owns(w, r');
    }
  }

  /** With no hypothesis on run lengths: if store calls take at most 4.866 s, runs
      exclude each other in every state, panics or not. */
  lemma MutualExclusionByTimeBound(tr: seq<World>, acts: seq<Act>, n: nat, d: nat, panics: bool)
    requires PromptHistory(tr, acts, d, panics) && d <= SLOWEST_CALL && n < |tr|
    ensures Exclusive(tr[n])
  {
    CoreHolds(tr, acts, n, d, panics);
    CoreIsExclusive(tr[n]);
  }

  // ── Too slow ───────────────────────────────────────────────────────────────

  // The slow run has lost its verdict and is about to release. A sweep lists it,
  // fails it and drops its guard.
  function Listing(now: int, guard: Guard, row: RunRow, entered: int, todo: seq<Listed>, updated: bool): World {
    Alone(now, guard, row, Recorded, entered).(sweeps := map[0 := Sweep(0, todo, updated)])
  }

  function SlowEntry(): Listed {
    Listed(1, 0, PendingSteps(SlowActions()))
  }

  function Swept(): RunRow {
    Row(Failed, FinishPending(PendingSteps(SlowActions()), 0))
  }

  lemma SweepLists(now: int, guard: Guard, entered: int, d: nat)
    requires now > CLAIM_STALE_AFTER
    ensures StepsTo(Alone(now, guard, Fresh(), Recorded, entered), SweepList(0, 0, now, [1]),
                    Listing(now, guard, Fresh(), entered, [SlowEntry()], false), d)
  {
    hide PendingSteps, SlowActions;
    var w, a := Alone(now, guard, Fresh(), Recorded, entered), SweepList(0, 0, now, [1]);
    assert StuckRuns(w.runs, now - CLAIM_STALE_AFTER) == {1};
    assert Read(w.runs, [1]) == [SlowEntry()];
    assert NextSweeps(w, a) == map[0 := Sweep(0, [SlowEntry()], false)];
  }

  lemma SweepFails(now: int, guard: Guard, entered: int, d: nat)
    ensures StepsTo(Listing(now, guard, Fresh(), entered, [SlowEntry()], false), SweepUpdate(0, true),
                    Listing(now, guard, Swept(), entered, [SlowEntry()], true), d)
  {
    hide PendingSteps, SlowActions, FinishPending;
    var w, a := Listing(now, guard, Fresh(), entered, [SlowEntry()], false), SweepUpdate(0, true);
    assert NextRuns(w, a) == map[1 := Swept()];
    assert NextSweeps(w, a) == map[0 := Sweep(0, [SlowEntry()], true)];
  }

  lemma SweepDrops(now: int, since: int, entered: int, d: nat)
    ensures StepsTo(Listing(now, Held(1, since), Swept(), entered, [SlowEntry()], true), SweepRelease(0, true),
                    Listing(now, Free, Swept(), entered, [], false), d)
  {
    hide PendingSteps, SlowActions, FinishPending;
    var w, a := Listing(now, Held(1, since), Swept(), entered, [SlowEntry()], true), SweepRelease(0, true);
    assert NextAutos(w, a) == map[0 := AutomationRow(true, Free)];
    assert [SlowEntry()][1..] == [];
    assert NextSweeps(w, a) == map[0 := Sweep(0, [], false)];
  }

  // Then a second firing takes its place beside it.
  function Rivals(now: int, guard: Guard, entered: int, pc: Pc): World {
    World(now, map[0 := AutomationRow(true, guard)],
          map[1 := Swept(), 2 := RunRow(0, None, InProgress, PendingSteps(SlowActions()), Stored(now))], 3,
          map[1 := OneProc(Recorded, entered),
              2 := Proc(0, pc, SlowActions(), PendingSteps(SlowActions()), now, now)],
          map[0 := if pc.Created? then 1 else 2], map[0 := Sweep(0, [], false)])
  }

  lemma RivalFires(now: int, entered: int, d: nat)
    ensures StepsTo(Listing(now, Free, Swept(), entered, [], false), FireSlow(now),
                    Rivals(now, Free, entered, Created(false)), d)
  {
    hide PendingSteps, SlowActions, FinishPending, Stored;
    var w, a := Listing(now, Free, Swept(), entered, [], false), FireSlow(now);
    var w' := Rivals(now, Free, entered, Created(false));
    assert NextRuns(w, a) == w'.runs;
    assert NextProcs(w, a) == w'.procs;
  }

  lemma RivalTakesSlot(now: int, entered: int, d: nat)
    ensures StepsTo(Rivals(now, Free, entered, Created(false)), TakeSlot(2), Rivals(now, Free, entered, Slotted), d)
  {
    hide PendingSteps, SlowActions, FinishPending, Stored;
    var w, a, w' := Rivals(now, Free, entered, Created(false)), TakeSlot(2), Rivals(now, Free, entered, Slotted);
    assert NextProcs(w, a) == w'.procs;
    assert NextSlots(w, a) == w'.slots;
  }

  lemma RivalReads(now: int, entered: int, d: nat)
    ensures StepsTo(Rivals(now, Free, entered, Slotted), ReadClock(2), Rivals(now, Free, entered, Claiming(now)), d)
  {
    hide PendingSteps, SlowActions, FinishPending, Stored;
    var w, a, w' := Rivals(now, Free, entered, Slotted), ReadClock(2), Rivals(now, Free, entered, Claiming(now));
    assert NextProcs(w, a) == w'.procs;
  }

  lemma RivalClaims(now: int, entered: int, d: nat)
    ensures StepsTo(Rivals(now, Free, entered, Claiming(now)), TryClaim(2, now),
                    Rivals(now, Held(2, Stored(now)), entered, Guarded), d)
  {
    hide PendingSteps, SlowActions, FinishPending, Stored;
    var w, a := Rivals(now, Free, entered, Claiming(now)), TryClaim(2, now);
    var w' := Rivals(now, Held(2, Stored(now)), entered, Guarded);
    assert NextProcs(w, a) == w'.procs;
    assert NextAutos(w, a) == w'.autos;
  }

  lemma SweepRunsThrough(now: int, since: int, entered: int, d: nat, panics: bool)
    requires now > CLAIM_STALE_AFTER && Reachable(Alone(now, Held(1, since), Fresh(), Recorded, entered), d, panics)
    ensures Reachable(Listing(now, Free, Swept(), entered, [], false), d, panics)
  {
    hide Reachable, StepsTo, Alone, Listing, Fresh, Swept;
    var guard := Held(1, since);
    SweepLists(now, guard, entered, d);
    Reaches(Alone(now, guard, Fresh(), Recorded, entered), SweepList(0, 0, now, [1]),
            Listing(now, guard, Fresh(), entered, [SlowEntry()], false), d, panics);
    SweepFails(now, guard, entered, d);
    Reaches(Listing(now, guard, Fresh(), entered, [SlowEntry()], false), SweepUpdate(0, true),
            Listing(now, guard, Swept(), entered, [SlowEntry()], true), d, panics);
    SweepDrops(now, since, entered, d);
    Reaches(Listing(now, guard, Swept(), entered, [SlowEntry()], true), SweepRelease(0, true),
            Listing(now, Free, Swept(), entered, [], false), d, panics);
  }

  lemma RivalArrives(now: int, entered: int, d: nat, panics: bool)
    requires Reachable(Listing(now, Free, Swept(), entered, [], false), d, panics)
    ensures Reachable(Rivals(now, Held(2, Stored(now)), entered, Guarded), d, panics)
  {
    FireIsFire(now);
    hide Reachable, StepsTo, Listing, Rivals, Swept, FireSlow;
    RivalFires(now, entered, d);
    Reaches(Listing(now, Free, Swept(), entered, [], false), FireSlow(now), Rivals(now, Free, entered, Created(false)),
            d, panics);
    RivalTakesSlot(now, entered, d);
    Reaches(Rivals(now, Free, entered, Created(false)), TakeSlot(2), Rivals(now, Free, entered, Slotted), d, panics);
    RivalReads(now, entered, d);
    Reaches(Rivals(now, Free, entered, Slotted), ReadClock(2), Rivals(now, Free, entered, Claiming(now)), d, panics);
    RivalClaims(now, entered, d);
    Reaches(Rivals(now, Free, entered, Claiming(now)), TryClaim(2, now),
            Rivals(now, Held(2, Stored(now)), entered, Guarded), d, panics);
  }

  // A run that lost its verdict's write is swept before it releases, and a rival claims.
  lemma SlowStoreOverlaps(d: nat, panics: bool) returns (w: World)
    requires d > SLOWEST_CALL
    ensures Reachable(w, d, panics) && !Exclusive(w)
  {
    hide Reachable, Alone, Listing, Fresh;
    var since := SlowFinish(d, false, panics);
    var now, entered := SlowEnd(d) + d, SlowEnd(d);
    SweepRunsThrough(now, since, entered, d, panics);
    RivalArrives(now, entered, d, panics);
    w := Rivals(now, Held(2, Stored(now)), entered, Guarded);
    assert Contend(w, 1, 2);
  }

  /** Runs exclude each other in every reachable state exactly for store calls of
      at most 4.866 s, with panics or without. Beyond that a run whose verdict was
      lost is swept while it still holds the guard, and a second one claims it. */
  lemma ExclusionIff(d: nat, panics: bool)
    ensures (forall w :: Reachable(w, d, panics) ==> Exclusive(w)) <==> d <= SLOWEST_CALL
  {
    hide Exclusive;
    if d <= SLOWEST_CALL {
      forall w | Reachable(w, d, panics)
        ensures Exclusive(w)
      {
        var tr, acts :| IsHistoryTo(tr, acts, w, d, panics);
        MutualExclusionByTimeBound(tr, acts, |acts|, d, panics);
      }
    } else {
      var w := SlowStoreOverlaps(d, panics);
    }
  }
}
