/** The two tables behind automation runs, one function per SQL statement
    (query/automations.query.go, query/automation_runs.query.go), and the
    executor's state-changing operations on them. */
module RunTables {
  import opened Base
  import opened AutomationSteps

  const MAX_CONCURRENT_RUNS := 10
  const MAX_LIMIT := 500

  datatype RunStatus = InProgress | Succeeded | Failed | Skipped

  datatype RunRow = RunRow(automation: int, slot: Option<int>, status: RunStatus, steps: seq<StepResult>,
                           startedAt: int)

  // running_run_id and running_since are set and cleared together.
  datatype Guard = Free | Held(run: int, since: int)
  datatype AutomationRow = AutomationRow(active: bool, guard: Guard)

  type Automations = map<int, AutomationRow>
  type Runs = map<int, RunRow>

  // ── Statements ─────────────────────────────────────────────────────────────

  predicate Claimable(autos: Automations, automation: int, staleBefore: int) {
    automation in autos && autos[automation].active &&
    match autos[automation].guard
    case Free => true
    case Held(_, since) => since < staleBefore
  }

  function Claim(autos: Automations, automation: int, run: int, since: int, staleBefore: int): Automations {
    if Claimable(autos, automation, staleBefore)
    then autos[automation := autos[automation].(guard := Held(run, since))]
    else autos
  }

  function Release(autos: Automations, automation: int, run: int): Automations {
    if automation in autos && autos[automation].guard.Held? && autos[automation].guard.run == run
    then autos[automation := autos[automation].(guard := Free)]
    else autos
  }

  function SetOutcome(runs: Runs, run: int, status: RunStatus, steps: seq<StepResult>): Runs {
    if run in runs then runs[run := runs[run].(status := status, steps := steps)] else runs
  }

  function SetSteps(runs: Runs, run: int, steps: seq<StepResult>): Runs {
    if run in runs then runs[run := runs[run].(steps := steps)] else runs
  }

  // The unique key on (automation_id, scheduled_at); a null slot never collides.
  ghost predicate SlotTaken(runs: Runs, automation: int, slot: Option<int>) {
    slot.Some? && exists r :: r in runs && runs[r].automation == automation && runs[r].slot == slot
  }

  predicate SameSlot(a: RunRow, b: RunRow) {
    a.automation == b.automation && a.slot.Some? && a.slot == b.slot
  }

  ghost predicate SlotsUnique(runs: Runs) {
    forall r, r' :: r in runs && r' in runs && SameSlot(runs[r], runs[r']) ==> r == r'
  }

  predicate Stuck(row: RunRow, cutoff: int) {
    row.status == InProgress && row.startedAt < cutoff
  }

  function StuckRuns(runs: Runs, cutoff: int): set<int> {
    set r | r in runs && Stuck(runs[r], cutoff)
  }

  // What ListStuckAutomationRuns may return: distinct stuck runs, all of them
  // unless the limit cut the list.
  ghost predicate StuckListing(runs: Runs, cutoff: int, listed: seq<int>) {
    && |listed| <= MAX_LIMIT
    && (forall i :: 0 <= i < |listed| ==> listed[i] in StuckRuns(runs, cutoff))
    && (forall i, j :: 0 <= i < j < |listed| ==> listed[i] != listed[j])
    && (|listed| < MAX_LIMIT ==> forall r :: r in StuckRuns(runs, cutoff) ==> r in listed)
  }

  // What the sweep does to one run row and to one guard.
  function SweptRun(row: RunRow, listed: bool): RunRow {
    if listed then row.(status := Failed, steps := FinishPending(row.steps, 0)) else row
  }

  function SweptGuard(runs: Runs, automation: int, row: AutomationRow, listed: seq<int>): AutomationRow {
    if && row.guard.Held? && row.guard.run in listed
       && row.guard.run in runs && runs[row.guard.run].automation == automation
    then row.(guard := Free)
    else row
  }

  function SweepRuns(runs: Runs, listed: seq<int>): Runs {
    map r | r in runs :: SweptRun(runs[r], r in listed)
  }

  function SweepGuards(runs: Runs, autos: Automations, listed: seq<int>): Automations {
    map a | a in autos :: SweptGuard(runs, a, autos[a], listed)
  }

  /** A claim is taken by exactly one caller, and only a holder's own release
      frees it: releasing anyone else's claim changes nothing. */
  lemma ReleaseIsOwn(autos: Automations, automation: int, run: int, other: int, since: int, staleBefore: int)
    requires Claimable(autos, automation, staleBefore) && run != other
    ensures var claimed := Claim(autos, automation, run, since, staleBefore);
            && Release(claimed, automation, other) == claimed
            && (autos[automation].guard.Free? ==> Release(claimed, automation, run) == autos)
            && (forall s: int, b: int :: b <= since ==> Claim(claimed, automation, other, s, b) == claimed)
  {
    var claimed := Claim(autos, automation, run, since, staleBefore);
    assert claimed[automation].guard == Held(run, since);
    if autos[automation].guard.Free? {
      assert autos[automation].(guard := Free) == autos[automation];
      assert Release(claimed, automation, run) == autos;
    }
  }

  lemma SweepLeavesNone(runs: Runs, listed: seq<int>, cutoff: int)
    requires forall r :: r in StuckRuns(runs, cutoff) ==> r in listed
    ensures StuckRuns(SweepRuns(runs, listed), cutoff) == {}
  {
    forall r | r in runs
      ensures !Stuck(SweepRuns(runs, listed)[r], cutoff)
    {
      if Stuck(runs[r], cutoff) {
        assert r in StuckRuns(runs, cutoff);
      }
    }
  }

  // Settling one more run of the list extends the sweep by it.
  lemma SweepOneMore(runs: Runs, done: seq<int>, r: int)
    requires r in runs && r !in done
    ensures SetOutcome(SweepRuns(runs, done), r, Failed, FinishPending(runs[r].steps, 0)) == SweepRuns(runs, done + [r])
  {
  }

  lemma ReleaseOneMore(runs: Runs, autos: Automations, done: seq<int>, r: int)
    requires r in runs && r !in done
    ensures Release(SweepGuards(runs, autos, done), runs[r].automation, r) == SweepGuards(runs, autos, done + [r])
  {
  }

  // ── The tables and the executor as objects ─────────────────────────────────

  class Store {
    var autos: Automations
    var runs: Runs
    var nextRun: int

    ghost predicate Valid()
      reads this
    {
      SlotsUnique(runs) && forall r :: r in runs ==> r < nextRun
    }

    constructor ()
      ensures Valid() && autos == map[] && runs == map[]
    {
      autos, runs, nextRun := map[], map[], 1;
    }

    method ClaimAutomationRun(automation: int, run: int, now: int, staleBefore: int) returns (won: bool)
      modifies this`autos
      ensures won <==> Claimable(old(autos), automation, staleBefore)
      ensures autos == Claim(old(autos), automation, run, Stored(now), staleBefore)
    {
      won := false;
      if automation in autos && autos[automation].active {
        var row := autos[automation];
        if row.guard.Free? || row.guard.since < staleBefore {
          autos := autos[automation := row.(guard := Held(run, Stored(now)))];
          won := true;
        }
      }
    }

    method ReleaseAutomationRun(automation: int, run: int)
      modifies this`autos
      ensures autos == Release(old(autos), automation, run)
    {
      if automation in autos && autos[automation].guard.Held? && autos[automation].guard.run == run {
        autos := autos[automation := autos[automation].(guard := Free)];
      }
    }

    /** Inserting a schedule slot a second time is a no-op, never a second run. */
    method CreateAutomationRun(automation: int, slot: Option<int>, actions: seq<Action>, now: int)
      returns (run: int, won: bool)
      requires Valid()
      modifies this`runs, this`nextRun
      ensures Valid()
      ensures won <==> !SlotTaken(old(runs), automation, slot)
      ensures !won ==> runs == old(runs)
      ensures won ==> run !in old(runs) &&
                      runs == old(runs)[run := RunRow(automation, slot, InProgress, PendingSteps(actions), Stored(now))]
    {
      run := nextRun;
      if slot.Some? {
        var others := runs.Keys;
        while others != {}
          invariant runs == old(runs) && nextRun == old(nextRun) && others <= runs.Keys
          invariant forall r :: r in runs && r !in others ==>
                      !(runs[r].automation == automation && runs[r].slot == slot)
          decreases others
        {
          var r := Pick(others);
          if runs[r].automation == automation && runs[r].slot == slot {
            return run, false;
          }
          others := others - {r};
        }
      }
      runs := runs[run := RunRow(automation, slot, InProgress, PendingSteps(actions), Stored(now))];
      nextRun := nextRun + 1;
      won := true;
    }

    method UpdateOutcome(run: int, status: RunStatus, steps: seq<StepResult>)
      modifies this`runs
      ensures runs == SetOutcome(old(runs), run, status, steps)
    {
      if run in runs {
        runs := runs[run := runs[run].(status := status, steps := steps)];
      }
    }

    method ListStuckAutomationRuns(cutoff: int) returns (listed: seq<int>)
      ensures StuckListing(runs, cutoff, listed)
    {
      listed := [];
      var others := runs.Keys;
      while others != {} && |listed| < MAX_LIMIT
        invariant others <= runs.Keys && |listed| <= MAX_LIMIT
        invariant forall i :: 0 <= i < |listed| ==> listed[i] in StuckRuns(runs, cutoff) && listed[i] !in others
        invariant forall i, j :: 0 <= i < j < |listed| ==> listed[i] != listed[j]
        invariant forall r :: r in StuckRuns(runs, cutoff) ==> r in others || r in listed
        decreases others
      {
        var r := Pick(others);
        others := others - {r};
        if Stuck(runs[r], cutoff) {
          listed := listed + [r];
        }
      }
    }

    /** FailStuckRuns with successful writes: every listed run is failed with no
        step pending, its own guard and no other is dropped, and nothing else
        moves. Below the limit no stuck run is left. */
    method FailStuckRuns(now: int) returns (ghost listed: seq<int>)
      modifies this`runs, this`autos
      ensures StuckListing(old(runs), now - CLAIM_STALE_AFTER, listed)
      ensures runs == SweepRuns(old(runs), listed)
      ensures autos == SweepGuards(old(runs), old(autos), listed)
      ensures forall r :: r in listed ==> r in runs && runs[r].status == Failed && NoPending(runs[r].steps)
      ensures |listed| < MAX_LIMIT ==> StuckRuns(runs, now - CLAIM_STALE_AFTER) == {}
    {
      hide SetOutcome, Release, FinishPending;
      var todo := ListStuckAutomationRuns(now - CLAIM_STALE_AFTER);
      listed := todo;
      var i := 0;
      while i < |todo|
        invariant i <= |todo|
        invariant runs == SweepRuns(old(runs), todo[..i])
        invariant autos == SweepGuards(old(runs), old(autos), todo[..i])
      {
        var r := todo[i];
        assert r !in todo[..i] && r in StuckRuns(old(runs), now - CLAIM_STALE_AFTER);
        var row := runs[r];
        SweepOneMore(old(runs), todo[..i], r);
        ReleaseOneMore(old(runs), old(autos), todo[..i], r);
        UpdateOutcome(r, Failed, FinishPending(row.steps, 0));
        ReleaseAutomationRun(row.automation, r);
        assert todo[..i + 1] == todo[..i] + [r];
        i := i + 1;
      }
      assert todo[..i] == todo;
      if |todo| < MAX_LIMIT {
        SweepLeavesNone(old(runs), todo, now - CLAIM_STALE_AFTER);
      }
    }
  }
}
