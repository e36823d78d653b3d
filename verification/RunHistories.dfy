/** The run protocol's promises over whole histories. */
module RunHistories {
  import opened Base
  import opened AutomationSteps
  import opened RunTables
  import opened RunProtocol
  import opened RunSafety

  // A control plane starts with any well-formed tables and nothing live.
  ghost predicate Init(w: World) {
    && w.procs == map[] && w.slots == map[] && w.sweeps == map[]
    && Ids(w) && Times(w) && Guards(w) && Settled(w) && SlotsUnique(w.runs)
  }

  ghost predicate History(tr: seq<World>, acts: seq<Act>) {
    && |tr| == |acts| + 1 && Init(tr[0])
    && forall i :: 0 <= i < |acts| ==> Enabled(tr[i], acts[i]) && tr[i + 1] == Next(tr[i], acts[i])
  }

  ghost predicate AllTimely(tr: seq<World>) {
    forall i :: 0 <= i < |tr| ==> Timely(tr[i])
  }

  lemma {:induction false} InvHolds(tr: seq<World>, acts: seq<Act>, n: nat)
    requires History(tr, acts) && AllTimely(tr) && n < |tr|
    ensures Inv(tr[n])
  {
    if n == 0 {
      assert forall k :: InExecute(tr[0], k) == {};
    } else {
      InvHolds(tr, acts, n - 1);
      StepKeepsInv(tr[n - 1], acts[n - 1]);
    }
  }

  /** Over every interleaving, if no live run outlasts the lease: a run past its
      claim still holds the guard, and no second run of that automation is past
      its own. */
  lemma MutualExclusion(tr: seq<World>, acts: seq<Act>, n: nat, r: int, r': int)
    requires History(tr, acts) && AllTimely(tr) && n < |tr|
    requires r in tr[n].procs && HoldsGuard(tr[n].procs[r].pc)
    requires r' in tr[n].procs && HoldsGuard(tr[n].procs[r'].pc)
    requires r in tr[n].runs && r' in tr[n].runs && tr[n].runs[r].automation == tr[n].runs[r'].automation
    ensures r == r' && Owns(tr[n], r)
  {
    InvHolds(tr, acts, n);
    assert Owns(tr[n], r) && Owns(tr[n], r');
  }

  /** Timeliness is what the lease needs: a rival's claim takes the guard from a
      live holder exactly when the holder's claim is older than the lease. */
  lemma LeaseLostIff(w: World, holder: int, rival: int, since: int)
    requires Inv(w) && Enabled(w, TryClaim(rival, since)) && rival != holder
    requires holder in w.procs && HoldsGuard(w.procs[holder].pc)
    requires w.runs[holder].automation == w.runs[rival].automation
    ensures Owns(w, holder)
    ensures var row := w.autos[w.runs[holder].automation];
            !Owns(Next(w, TryClaim(rival, since)), holder)
            <==> row.active && row.guard.since < w.procs[rival].pc.readAt - CLAIM_STALE_AFTER
  {
    assert Owns(w, holder);
  }

  // ── Settled exactly once ───────────────────────────────────────────────────

  lemma SettledRowKept(w: World, a: Act, r: int)
    requires Inv(w) && Enabled(w, a) && r in w.runs && w.runs[r].status != InProgress
    ensures r in Next(w, a).runs && Next(w, a).runs[r] == w.runs[r]
  {
    RowAfter(w, a, r);
    if a.SweepUpdate? && w.sweeps[a.sweep].todo[0].run == r {
      assert ListedDead(w, w.sweeps[a.sweep].todo[0]);
      SweepWrites(w, a);
    }
    hide Next, Times, Guards, Owners, Sweeps, Settled, SlotsCounted, SlotsUnique, StuckListing, FinishPending;
  }

  lemma SettledOneStep(tr: seq<World>, acts: seq<Act>, k: nat, r: int)
    requires History(tr, acts) && AllTimely(tr) && k < |acts|
    requires r in tr[k].runs && tr[k].runs[r].status != InProgress
    ensures r in tr[k + 1].runs && tr[k + 1].runs[r] == tr[k].runs[r]
  {
    InvHolds(tr, acts, k);
    SettledRowKept(tr[k], acts[k], r);
  }

  lemma SettledStepsDone(tr: seq<World>, acts: seq<Act>, k: nat, r: int)
    requires History(tr, acts) && AllTimely(tr) && k < |tr|
    requires r in tr[k].runs && tr[k].runs[r].status != InProgress
    ensures NoPending(tr[k].runs[r].steps)
  {
    InvHolds(tr, acts, k);
  }

  /** A terminal status, with its step list, is never changed again, and keeps no
      pending step. */
  lemma {:induction false} TerminalIsFinal(tr: seq<World>, acts: seq<Act>, i: nat, j: nat, r: int)
    requires History(tr, acts) && AllTimely(tr) && i <= j < |tr|
    requires r in tr[i].runs && tr[i].runs[r].status != InProgress
    ensures r in tr[j].runs && tr[j].runs[r] == tr[i].runs[r] && NoPending(tr[j].runs[r].steps)
  {
    if i == j {
      SettledStepsDone(tr, acts, i, r);
    } else {
      TerminalIsFinal(tr, acts, i, j - 1, r);
      SettledOneStep(tr, acts, j - 1, r);
    }
  }

  // Nothing lost: every outcome write lands and no node crashes.
  predicate Clean(a: Act) {
    match a
    case Fire(_, _, _, _, _, _, lost) => !lost
    case SkipEarly(_, ok) => ok
    case RecordEnd(_, ok) => ok
    case Finish(_, _, _, ok) => ok
    case Crash(_) => false
    case _ => true
  }

  // The verdict is written before the process goes.
  ghost predicate Verdicts(w: World) {
    forall r :: r in w.procs && r in w.runs && !Undecided(w.procs[r].pc) ==> w.runs[r].status != InProgress
  }

  ghost predicate Decided(w: World, before: Runs) {
    Verdicts(w) && forall r :: r in w.runs && w.runs[r].status == InProgress ==> r in w.procs || r in before
  }

  lemma VerdictOne(w: World, a: Act, r: int)
    requires Inv(w) && Enabled(w, a) && Clean(a) && Verdicts(w)
    requires r in Next(w, a).procs && r in Next(w, a).runs && !Undecided(Next(w, a).procs[r].pc)
    ensures Next(w, a).runs[r].status != InProgress
  {
    ProcAfter(w, a, r);
    assert r in w.procs ==> r in w.runs;
    if w.procs[r].pc == Next(w, a).procs[r].pc {
      SettledRowKept(w, a, r);
    } else {
      VerdictWritten(w, a, r);
    }
    hide Next, Inv, StuckListing, Claimable;
  }

  // The steps that decide write the verdict they decide on.
  lemma VerdictWritten(w: World, a: Act, r: int)
    requires Enabled(w, a) && Clean(a) && Verdicts(w) && r in w.runs && r in w.procs && Moves(w, a).Some?
    requires Moves(w, a).value.0 == r
    requires !Undecided(Moves(w, a).value.1)
    ensures r in Next(w, a).runs && Next(w, a).runs[r].status != InProgress
  {
    hide NextAutos, NextProcs, NextSlots, NextSweeps, StuckListing, FinishPending, Claimable;
  }

  lemma VerdictsKept(w: World, a: Act)
    requires Inv(w) && Enabled(w, a) && Clean(a) && Verdicts(w)
    ensures Verdicts(Next(w, a))
  {
    hide Next, Inv, Enabled, Clean;
    var w' := Next(w, a);
    forall r | r in w'.procs && r in w'.runs && !Undecided(w'.procs[r].pc)
      ensures w'.runs[r].status != InProgress
    {
      VerdictOne(w, a, r);
    }
  }

  // Who goes has been decided: a skip is written, a leaver's verdict was.
  lemma GoneIsDecided(w: World, a: Act, r: int)
    requires Inv(w) && Enabled(w, a) && Clean(a) && Verdicts(w) && r in w.procs && r !in Next(w, a).procs
    ensures r in Next(w, a).runs && Next(w, a).runs[r].status != InProgress
  {
    ProcGone(w, a, r);
    if a.Leave? {
      SettledRowKept(w, a, r);
    }
    hide NextAutos, NextProcs, NextSlots, NextSweeps, StuckListing, FinishPending, Times, Guards, Owners, Open, Sweeps;
    hide Settled, SlotsCounted, SlotsUnique;
  }

  // A firing whose insert is not lost has a process.
  lemma FiredIsLive(w: World, a: Act, r: int)
    requires Enabled(w, a) && Clean(a) && r in Next(w, a).runs && r !in w.runs
    ensures r in Next(w, a).procs
  {
    hide NextAutos, NextSlots, NextSweeps, StuckListing, NewRun;
  }

  lemma DecidedKept(w: World, a: Act, before: Runs)
    requires Inv(w) && Enabled(w, a) && Clean(a) && Decided(w, before)
    ensures Decided(Next(w, a), before)
  {
    hide Next, Inv, Enabled, Clean, Verdicts;
    VerdictsKept(w, a);
    var w' := Next(w, a);
    forall r | r in w'.runs && w'.runs[r].status == InProgress
      ensures r in w'.procs || r in before
    {
      if r !in w.runs {
        FiredIsLive(w, a, r);
      } else if w.runs[r].status != InProgress {
        SettledRowKept(w, a, r);
      } else if r in w.procs && r !in w'.procs {
        GoneIsDecided(w, a, r);
      }
    }
  }

  /** Without crashes and lost writes, a run created in the history and no longer
      live has its terminal status: nothing waits for the sweep. */
  lemma {:induction false} CleanRunsSettle(tr: seq<World>, acts: seq<Act>, n: nat)
    requires History(tr, acts) && AllTimely(tr) && n < |tr|
    requires forall i :: 0 <= i < |acts| ==> Clean(acts[i])
    ensures Decided(tr[n], tr[0].runs)
  {
    hide Next, Times, Guards, Owners, Open, Sweeps, Settled, SlotsCounted, SlotsUnique;
    if n > 0 {
      CleanRunsSettle(tr, acts, n - 1);
      InvHolds(tr, acts, n - 1);
      DecidedKept(tr[n - 1], acts[n - 1], tr[0].runs);
    }
  }

  /** And nothing waits for long: in such a history a run older than the lease is
      settled. */
  lemma OldRunsAreSettled(tr: seq<World>, acts: seq<Act>, n: nat, r: int)
    requires History(tr, acts) && AllTimely(tr) && n < |tr|
    requires forall i :: 0 <= i < |acts| ==> Clean(acts[i])
    requires r in tr[n].runs && r !in tr[0].runs && tr[n].runs[r].startedAt + CLAIM_STALE_AFTER < tr[n].now
    ensures tr[n].runs[r].status != InProgress && NoPending(tr[n].runs[r].steps)
  {
    CleanRunsSettle(tr, acts, n);
    assert Timely(tr[n]);
    SettledStepsDone(tr, acts, n, r);
  }

  // ── What a settled row shows ───────────────────────────────────────────────

  ghost predicate Unstarted(steps: seq<StepResult>) {
    forall j :: 0 <= j < |steps| ==> steps[j].startedAt.None?
  }

  ghost predicate AllSkipped(steps: seq<StepResult>) {
    forall j :: 0 <= j < |steps| ==> steps[j].status == StepSkipped
  }

  ghost predicate AllPending(steps: seq<StepResult>) {
    forall j :: 0 <= j < |steps| ==> steps[j].status == StepPending
  }

  // What a goroutine remembers of its steps is the list it inserted.
  ghost predicate RemembersNothing(w: World) {
    forall r :: r in w.procs ==> Unstarted(w.procs[r].initial) && AllPending(w.procs[r].initial)
  }

  lemma {:induction false} NothingRemembered(tr: seq<World>, acts: seq<Act>, n: nat)
    requires History(tr, acts) && n < |tr|
    ensures RemembersNothing(tr[n])
  {
    hide NextAutos, NextRuns, NextSlots, NextSweeps, Moves;
    if n > 0 {
      NothingRemembered(tr, acts, n - 1);
    }
  }

  lemma FinishedInitial(steps: seq<StepResult>)
    requires Unstarted(steps) && AllPending(steps)
    ensures Unstarted(FinishPending(steps, 0)) && AllSkipped(FinishPending(steps, 0))
  {
    var out := FinishPending(steps, 0);
    assert forall j :: 0 <= j < |out| ==> out[j] == SkipIfPending(steps[j]);
  }

  /** A panic forgets: whatever steps ran and were persisted, the row the panic
      handler writes shows every step skipped and none started. */
  lemma PanicForgets(tr: seq<World>, acts: seq<Act>, k: nat, r: int)
    requires History(tr, acts) && k < |acts| && acts[k] == RecordEnd(r, true) && r in tr[k].procs
    requires tr[k].procs[r].pc.Recovered?
    ensures r in tr[k + 1].runs && tr[k + 1].runs[r].status == Failed
    ensures tr[k + 1].runs[r].steps == FinishPending(tr[k].procs[r].initial, 0)
    ensures Unstarted(tr[k + 1].runs[r].steps) && AllSkipped(tr[k + 1].runs[r].steps)
  {
    hide NextAutos, NextProcs, NextSlots, NextSweeps, FinishPending;
    NothingRemembered(tr, acts, k);
    FinishedInitial(tr[k].procs[r].initial);
  }

  // How each kind of step settles a row.
  lemma SettlingStep(w: World, a: Act, r: int)
    requires Enabled(w, a) && RemembersNothing(w) && r in w.runs && w.runs[r].status == InProgress
    requires r in Next(w, a).runs && Next(w, a).runs[r].status != InProgress
    ensures (a.Finish? && a.run == r) || a.SweepUpdate? || Unstarted(Next(w, a).runs[r].steps)
    ensures Next(w, a).runs[r].status == Skipped ==> SkipsRun(w, a, r)
    ensures Next(w, a).runs[r].status == Succeeded ==>
              a.Finish? && a.run == r && AllSucceeded(a.steps) && Next(w, a).runs[r].steps == a.steps
    ensures Next(w, a).runs[r].status == Failed ==> FailsRun(w, a, r)
  {
    if a.SkipEarly? || a.RecordEnd? {
      FinishedInitial(w.procs[a.run].initial);
    }
    hide NextAutos, NextProcs, NextSlots, NextSweeps, FinishPending;
  }

  // A firing that must not run, finds every slot taken, or finds the guard held.
  ghost predicate SkipsRun(w: World, a: Act, r: int) {
    || (a.SkipEarly? && a.run == r)
    || (a.RecordEnd? && a.run == r && r in w.procs && w.procs[r].pc.Overlapped?)
  }

  // A step that did not succeed, a claim that erred, a refusal, a panic, or a sweep.
  ghost predicate FailsRun(w: World, a: Act, r: int) {
    || (a.Finish? && a.run == r && !AllSucceeded(a.steps))
    || (a.RecordEnd? && a.run == r && r in w.procs
        && (w.procs[r].pc.Barred? || w.procs[r].pc.Guarded? || w.procs[r].pc.Recovered?))
    || (a.SweepUpdate? && a.sweep in w.sweeps && w.sweeps[a.sweep].todo != [] && w.sweeps[a.sweep].todo[0].run == r)
  }

  // The step that settled a row, which stays as that step left it.
  lemma {:induction false} SettledAt(tr: seq<World>, acts: seq<Act>, n: nat, r: int) returns (k: nat)
    requires History(tr, acts) && AllTimely(tr) && n < |tr| && r in tr[n].runs && tr[n].runs[r].status != InProgress
    requires r in tr[0].runs ==> tr[0].runs[r].status == InProgress
    ensures k < n && r in tr[k].runs && tr[k].runs[r].status == InProgress
    ensures r in tr[k + 1].runs && tr[k + 1].runs[r] == tr[n].runs[r]
  {
    hide Next;
    InvHolds(tr, acts, n - 1);
    SettledIsOld(tr[n - 1], acts[n - 1], r);
    if tr[n - 1].runs[r].status != InProgress {
      SettledOneStep(tr, acts, n - 1, r);
      k := SettledAt(tr, acts, n - 1, r);
    } else {
      k := n - 1;
    }
  }

  /** What a terminal status means: `skipped` is a firing that must not run, found
      no slot or found the guard held; `success` a loop whose every step succeeded;
      `failed` a failed step, an error taking the guard, a refusal, a panic or a
      sweep. */
  lemma TerminalMeans(tr: seq<World>, acts: seq<Act>, n: nat, r: int) returns (k: nat)
    requires History(tr, acts) && AllTimely(tr) && n < |tr| && r in tr[n].runs && tr[n].runs[r].status != InProgress
    requires r in tr[0].runs ==> tr[0].runs[r].status == InProgress
    ensures k < n && r in tr[k].runs && tr[k].runs[r].status == InProgress
    ensures r in tr[k + 1].runs && tr[k + 1].runs[r] == tr[n].runs[r]
    ensures tr[n].runs[r].status == Skipped <==> SkipsRun(tr[k], acts[k], r)
    ensures tr[n].runs[r].status == Succeeded <==> acts[k].Finish? && acts[k].run == r && AllSucceeded(acts[k].steps)
    ensures tr[n].runs[r].status == Failed <==> FailsRun(tr[k], acts[k], r)
    ensures tr[n].runs[r].status == Succeeded ==> AllSucceeded(tr[n].runs[r].steps)
  {
    k := SettledAt(tr, acts, n, r);
    NothingRemembered(tr, acts, k);
    SettlingStep(tr[k], acts[k], r);
    hide Next, Enabled, AllSucceeded;
  }

  /** A settled row shows a started step only if the step loop's own verdict or a
      sweep settled it. */
  lemma StartedMeansFinishedOrSwept(tr: seq<World>, acts: seq<Act>, n: nat, r: int) returns (k: nat)
    requires History(tr, acts) && AllTimely(tr) && n < |tr|
    requires r in tr[n].runs && tr[n].runs[r].status != InProgress && !Unstarted(tr[n].runs[r].steps)
    requires r in tr[0].runs ==> tr[0].runs[r].status == InProgress
    ensures k < n && r in tr[k].runs && tr[k].runs[r].status == InProgress
    ensures (acts[k].Finish? && acts[k].run == r) || acts[k].SweepUpdate?
    ensures r in tr[k + 1].runs && tr[k + 1].runs[r] == tr[n].runs[r]
  {
    k := SettledAt(tr, acts, n, r);
    NothingRemembered(tr, acts, k);
    SettlingStep(tr[k], acts[k], r);
    hide Next, Enabled;
  }

  // ── What each decision leads to ────────────────────────────────────────────

  /** A firing is never queued: it takes a slot exactly if it may run and fewer than
      ten are held on its node, and is skipped exactly otherwise. */
  lemma SlotOrSkip(w: World, run: int, ok: bool)
    requires At(w, run) && w.procs[run].pc.Created?
    ensures Enabled(w, TakeSlot(run)) <==> !w.procs[run].pc.mustSkip && SlotsOf(w.slots, w.procs[run].node) < 10
    ensures Enabled(w, SkipEarly(run, ok)) <==> !Enabled(w, TakeSlot(run))
  {
  }

  /** A firing inserts one pending run exactly unless it is for a schedule slot that
      this automation has a run for already; then nothing happens. */
  lemma FireInsertsIff(w: World, a: Act)
    requires a.Fire? && Enabled(w, a) && w.nextRun !in w.runs
    ensures var taken := a.slot.Some? && exists r :: r in w.runs && w.runs[r].automation == a.automation
                                                     && w.runs[r].slot == a.slot;
            && (taken ==> Next(w, a) == w)
            && (!taken ==>
                  && Next(w, a).runs == w.runs[w.nextRun := RunRow(a.automation, a.slot, InProgress,
                                                                   PendingSteps(a.actions), Stored(a.readAt))]
                  && (w.nextRun !in w.procs ==> (w.nextRun in Next(w, a).procs <==> !a.lost)))
  {
    hide NextAutos, NextSlots, NextSweeps, PendingSteps, Stored;
    if r :| a.slot.Some? && r in w.runs && w.runs[r].automation == a.automation && w.runs[r].slot == a.slot {
      assert SlotTaken(w.runs, a.automation, a.slot);
    }
  }

  /** A claim takes the guard exactly of an active automation that is free or whose
      claim is older than 110 s at the clock reading before; a run that does not
      get it is skipped, one whose claim errs is failed. */
  lemma ClaimDecides(w: World, run: int, since: int, applied: bool)
    requires Enabled(w, TryClaim(run, since))
    ensures var a := w.runs[run].automation;
            var won := a in w.autos && w.autos[a].active
                       && (w.autos[a].guard.Free? || w.autos[a].guard.since < w.procs[run].pc.readAt - 110000);
            var w' := Next(w, TryClaim(run, since));
            && run in w'.procs
            && (won ==> w'.procs[run].pc == Guarded && w'.autos[a].guard == Held(run, Stored(since)))
            && (!won ==> w'.autos == w.autos && Enabled(w', RecordEnd(run, true))
                         && Next(w', RecordEnd(run, true)).runs[run].status == Skipped)
    ensures var w' := Next(w, ClaimFails(run, since, applied));
            Enabled(w', RecordEnd(run, true)) && Next(w', RecordEnd(run, true)).runs[run].status == Failed
  {
    hide StuckListing, Stored, NextSlots, NextSweeps;
  }

  /** A refused run is failed, and still releases the guard it took. */
  lemma RefusalReleases(w: World, run: int)
    requires Inv(w) && At(w, run) && w.procs[run].pc.Guarded?
    ensures Enabled(w, RecordEnd(run, true))
    ensures var w' := Next(w, RecordEnd(run, true));
            && w'.runs[run].status == Failed && Enabled(w', DropGuard(run, true))
            && Next(w', DropGuard(run, true)).autos[w.runs[run].automation].guard.Free?
  {
    assert Owns(w, run);
    hide StuckListing, Times, Guards, Open, Sweeps, Settled, SlotsCounted, SlotsUnique, NextSlots, NextSweeps;
  }

  /** Progress is on record as soon as it is written, and not before. */
  lemma ProgressIsRecorded(w: World, run: int, steps: seq<StepResult>, ok: bool)
    requires Enabled(w, Persist(run, steps, ok))
    ensures Next(w, Persist(run, steps, ok)) ==
            if ok then w.(runs := w.runs[run := w.runs[run].(steps := steps)]) else w
  {
  }

  lemma {:induction false} ListedDeadHolds(tr: seq<World>, acts: seq<Act>, i: nat, j: nat, e: Listed)
    requires History(tr, acts) && AllTimely(tr) && i <= j < |tr| && ListedDead(tr[i], e)
    ensures ListedDead(tr[j], e)
  {
    hide Next, ListedDead, Inv;
    if i < j {
      ListedDeadHolds(tr, acts, i, j - 1, e);
      InvHolds(tr, acts, j - 1);
      DeadRunsKept(tr[j - 1], acts[j - 1], e);
    }
  }

  /** A sweep keeps what a crashed run had on record: steps decided before the
      crash stay, only pending ones are skipped. */
  lemma SweepKeepsProgress(tr: seq<World>, acts: seq<Act>, i: nat, j: nat, r: int)
    requires History(tr, acts) && AllTimely(tr) && i < j < |tr| && acts[i].SweepList? && r in acts[i].listed
    requires r in tr[j].runs && tr[j].runs[r].status != InProgress
    ensures r in tr[i].runs && tr[j].runs[r].steps == FinishPending(tr[i].runs[r].steps, 0)
  {
    InvHolds(tr, acts, i);
    var p :| 0 <= p < |acts[i].listed| && acts[i].listed[p] == r;
    assert r in StuckRuns(tr[i].runs, acts[i].readAt - CLAIM_STALE_AFTER);
    var e := Listed(r, tr[i].runs[r].automation, tr[i].runs[r].steps);
    assert Timely(tr[i]);
    assert ListedDead(tr[i], e);
    hide Next, Inv, Init, Enabled;
    ListedDeadHolds(tr, acts, i, j, e);
  }

  // ── Retired automations ────────────────────────────────────────────────────

  ghost predicate Retired(w: World, automation: int) {
    automation in w.autos && !w.autos[automation].active
  }

  lemma RetiredKept(w: World, a: Act, automation: int)
    requires Enabled(w, a) && (Retired(w, automation) || a == Retire(automation))
    ensures Retired(Next(w, a), automation)
  {
    hide NextRuns, NextProcs, NextSlots, NextSweeps, StuckListing, Stored;
  }

  /** Once an automation is retired, no run of it takes the guard. */
  lemma {:induction false} RetiredNeverClaimed(tr: seq<World>, acts: seq<Act>, i: nat, n: nat, automation: int)
    requires History(tr, acts) && i < n < |tr| && acts[i] == Retire(automation)
    ensures Retired(tr[n], automation)
    ensures n < |acts| && acts[n].TryClaim? && tr[n].runs[acts[n].run].automation == automation ==>
              tr[n + 1].autos == tr[n].autos && tr[n + 1].procs[acts[n].run].pc == Overlapped
  {
    if n > i + 1 {
      RetiredNeverClaimed(tr, acts, i, n - 1, automation);
    }
    RetiredKept(tr[n - 1], acts[n - 1], automation);
    if n < |acts| && acts[n].TryClaim? {
      RetiredClaimLoses(tr[n], acts[n].run, acts[n].since);
    }
    hide Next, Enabled, Init;
  }

  lemma RetiredClaimLoses(w: World, run: int, since: int)
    requires Enabled(w, TryClaim(run, since))
    ensures Retired(w, w.runs[run].automation) ==>
              && Next(w, TryClaim(run, since)).autos == w.autos && run in Next(w, TryClaim(run, since)).procs
              && Next(w, TryClaim(run, since)).procs[run].pc == Overlapped
  {
    hide StuckListing, Stored, NextRuns, NextSlots, NextSweeps;
  }

  // ── No guard is left behind ────────────────────────────────────────────────

  // Nothing goes wrong with the guard: releases land, claims that err do not, and
  // no node crashes.
  predicate GuardClean(a: Act) {
    match a
    case DropGuard(_, ok) => ok
    case ClaimFails(_, _, applied) => !applied
    case Crash(_) => false
    case _ => true
  }

  // A held guard names a live run past its claim.
  ghost predicate GuardsLive(w: World) {
    forall a :: a in w.autos && w.autos[a].guard.Held? ==>
      w.autos[a].guard.run in w.procs && HoldsGuard(w.procs[w.autos[a].guard.run].pc)
  }

  lemma GuardAfter(w: World, a: Act, k: int)
    requires Inv(w) && Enabled(w, a) && GuardClean(a) && k in Next(w, a).autos && Next(w, a).autos[k].guard.Held?
    ensures || (k in w.autos && w.autos[k].guard == Next(w, a).autos[k].guard
                && !(a.DropGuard? && a.run == w.autos[k].guard.run))
            || (a.TryClaim? && Next(w, a).autos[k].guard.run == a.run && a.run in Next(w, a).procs
                && Next(w, a).procs[a.run].pc == Guarded)
  {
    hide NextRuns, NextSlots, NextSweeps, StuckListing, Stored, Times, Owners, Open, Sweeps, Settled;
    hide SlotsCounted, SlotsUnique;
  }

  // A run past its claim stops holding the guard only by its own release.
  lemma HolderAfter(w: World, a: Act, r: int)
    requires Enabled(w, a) && GuardClean(a) && r in w.procs && HoldsGuard(w.procs[r].pc)
    requires !(a.DropGuard? && a.run == r)
    requires Ids(w)
    ensures r in Next(w, a).procs && HoldsGuard(Next(w, a).procs[r].pc)
  {
    if r in Next(w, a).procs {
      ProcAfter(w, a, r);
    } else {
      ProcGone(w, a, r);
    }
    hide Next, StuckListing, Claimable;
  }

  lemma GuardsLiveKept(w: World, a: Act)
    requires Inv(w) && Enabled(w, a) && GuardClean(a) && GuardsLive(w)
    ensures GuardsLive(Next(w, a))
  {
    hide Next, Enabled, HoldsGuard, Times, Guards, Owners, Open, Sweeps, Settled, SlotsCounted, SlotsUnique;
    var w' := Next(w, a);
    forall k | k in w'.autos && w'.autos[k].guard.Held?
      ensures w'.autos[k].guard.run in w'.procs && HoldsGuard(w'.procs[w'.autos[k].guard.run].pc)
    {
      GuardAfter(w, a, k);
      if k in w.autos && w.autos[k].guard == w'.autos[k].guard && !(a.DropGuard? && a.run == w.autos[k].guard.run) {
        HolderAfter(w, a, w.autos[k].guard.run);
      } else {
        GuardedHolds();
      }
    }
  }

  lemma GuardedHolds()
    ensures HoldsGuard(Guarded)
  {
  }

  /** Every run gives its guard back: while nothing goes wrong with it, a held guard
      always names a live run past its claim. */
  lemma {:induction false} NoGuardLeftBehind(tr: seq<World>, acts: seq<Act>, n: nat)
    requires History(tr, acts) && AllTimely(tr) && n < |tr| && GuardsLive(tr[0])
    requires forall i :: 0 <= i < |acts| ==> GuardClean(acts[i])
    ensures GuardsLive(tr[n])
  {
    hide Next, Enabled, Inv, GuardsLive, GuardClean;
    if n > 0 {
      NoGuardLeftBehind(tr, acts, n - 1);
      InvHolds(tr, acts, n - 1);
      GuardsLiveKept(tr[n - 1], acts[n - 1]);
    }
  }

  // ── Firings that must not run ──────────────────────────────────────────────

  // Whatever is left of the firing is still before its slot.
  ghost predicate StillHeld(w: World, r: int) {
    r < w.nextRun && (r in w.procs ==> w.procs[r].pc == Created(true))
  }

  lemma HeldKept(w: World, a: Act, r: int)
    requires Enabled(w, a) && StillHeld(w, r)
    ensures StillHeld(Next(w, a), r)
  {
    CountersRise(w, a);
    if r in Next(w, a).procs {
      ProcAfter(w, a, r);
    }
    hide Next, StuckListing;
  }

  lemma FiredIsHeld(w: World, a: Act)
    requires Enabled(w, a) && a.Fire? && a.mustSkip && !LosesInsert(w, a) && w.nextRun !in w.procs
    ensures StillHeld(Next(w, a), w.nextRun)
  {
    hide NextAutos, NextRuns, NextSlots, NextSweeps, NewRun;
  }

  /** A firing of a disabled automation, or of a slot too old, never takes a slot,
      never claims and never runs a step. */
  lemma {:induction false} MustSkipNeverRuns(tr: seq<World>, acts: seq<Act>, i: nat, n: nat)
    requires History(tr, acts) && AllTimely(tr) && i < n < |tr|
    requires acts[i].Fire? && acts[i].mustSkip && !LosesInsert(tr[i], acts[i])
    ensures StillHeld(tr[n], tr[i].nextRun)
  {
    hide Next, StillHeld;
    if n == i + 1 {
      InvHolds(tr, acts, i);
      FiredIsHeld(tr[i], acts[i]);
    } else {
      MustSkipNeverRuns(tr, acts, i, n - 1);
      HeldKept(tr[n - 1], acts[n - 1], tr[i].nextRun);
    }
  }

  lemma SettledIsOld(w: World, a: Act, r: int)
    requires Ids(w) && Enabled(w, a) && r in Next(w, a).runs && Next(w, a).runs[r].status != InProgress
    ensures r in w.runs
  {
    hide NextAutos, NextProcs, NextSlots, NextSweeps;
  }

  // ── The sweep settles what a crash left ────────────────────────────────────

  predicate InTodo(todo: seq<Listed>, r: int) {
    exists i :: 0 <= i < |todo| && todo[i].run == r
  }

  // The sweep is alive and its writes succeed.
  ghost predicate SweepGoesOn(a: Act, w: World, sweep: int) {
    && !(a.Crash? && sweep in w.sweeps && w.sweeps[sweep].node == a.node)
    && !(a.SweepUpdate? && a.sweep == sweep && !a.ok)
  }

  // A run on the list is either still to be updated, or already failed.
  ghost predicate SweepOwes(w: World, sweep: int, r: int) {
    sweep in w.sweeps && r in w.runs &&
    ( || w.runs[r].status == Failed
      || (InTodo(w.sweeps[sweep].todo, r) && !(w.sweeps[sweep].updated && w.sweeps[sweep].todo[0].run == r)))
  }

  lemma SweepOwesKept(w: World, a: Act, sweep: int, r: int)
    requires Inv(w) && Enabled(w, a) && SweepGoesOn(a, w, sweep) && SweepOwes(w, sweep, r)
    ensures SweepOwes(Next(w, a), sweep, r)
  {
    hide Next, Inv, InTodo;
    SweepStays(w, a, sweep);
    if w.runs[r].status == Failed {
      SettledRowKept(w, a, r);
    } else {
      OwedStep(w, a, sweep, r);
    }
  }

  // The entry waits its turn, and its turn fails the run.
  lemma OwedStep(w: World, a: Act, sweep: int, r: int)
    requires Inv(w) && Enabled(w, a) && SweepGoesOn(a, w, sweep) && SweepOwes(w, sweep, r) && w.runs[r].status != Failed
    requires sweep in Next(w, a).sweeps
    ensures SweepOwes(Next(w, a), sweep, r)
  {
    var s := w.sweeps[sweep];
    var i :| 0 <= i < |s.todo| && s.todo[i].run == r;
    assert ListedDead(w, s.todo[i]);
    DeadStaysDead(w, a, r);
    if a.SweepRelease? && a.sweep == sweep {
      assert i > 0;
      assert s.todo[1..][i - 1].run == r;
    } else if a.SweepUpdate? && a.sweep == sweep && s.todo[0].run == r {
      SweepWrites(w, a);
    }
    hide Inv, NextRuns, NextAutos, NextProcs, NextSlots, StuckListing, FinishPending, NextNow;
  }

  lemma ListedIsOwed(w: World, a: Act, r: int)
    requires a.SweepList? && Enabled(w, a) && r in a.listed
    ensures SweepOwes(Next(w, a), a.sweep, r)
  {
    var p :| 0 <= p < |a.listed| && a.listed[p] == r;
    assert r in StuckRuns(w.runs, a.readAt - CLAIM_STALE_AFTER);
    assert Next(w, a).sweeps[a.sweep].todo[p].run == r;
  }

  lemma OwedOneStep(tr: seq<World>, acts: seq<Act>, k: nat, sweep: int, r: int)
    requires History(tr, acts) && AllTimely(tr) && k < |acts|
    requires SweepGoesOn(acts[k], tr[k], sweep) && SweepOwes(tr[k], sweep, r)
    ensures SweepOwes(tr[k + 1], sweep, r)
  {
    InvHolds(tr, acts, k);
    SweepOwesKept(tr[k], acts[k], sweep, r);
  }

  lemma {:induction false} OwedUntilFailed(tr: seq<World>, acts: seq<Act>, i: nat, j: nat, sweep: int, r: int)
    requires History(tr, acts) && AllTimely(tr) && i < j < |tr|
    requires acts[i].SweepList? && acts[i].sweep == sweep && r in acts[i].listed
    requires forall k :: i <= k < j ==> SweepGoesOn(acts[k], tr[k], sweep)
    ensures SweepOwes(tr[j], sweep, r)
  {
    if j == i + 1 {
      ListedIsOwed(tr[i], acts[i], r);
    } else {
      OwedUntilFailed(tr, acts, i, j - 1, sweep, r);
      OwedOneStep(tr, acts, j - 1, sweep, r);
    }
  }

  /** A crashed run listed by a sweep is failed by the time the sweep has gone
      through its list, whatever else happens meanwhile. */
  lemma SweptRunIsFailed(tr: seq<World>, acts: seq<Act>, i: nat, j: nat, sweep: int, r: int)
    requires History(tr, acts) && AllTimely(tr) && i < j < |tr|
    requires acts[i].SweepList? && acts[i].sweep == sweep && r in acts[i].listed
    requires forall k :: i <= k < j ==> SweepGoesOn(acts[k], tr[k], sweep)
    requires sweep in tr[j].sweeps && tr[j].sweeps[sweep].todo == []
    ensures r in tr[j].runs && tr[j].runs[r].status == Failed && NoPending(tr[j].runs[r].steps)
  {
    OwedUntilFailed(tr, acts, i, j, sweep, r);
    SettledStepsDone(tr, acts, j, r);
  }

  // ── The sweep frees the guard ──────────────────────────────────────────────

  ghost predicate NotGuarded(w: World, r: int) {
    forall a :: a in w.autos && w.autos[a].guard.Held? ==> w.autos[a].guard.run != r
  }

  // The sweep is alive and both its writes succeed.
  ghost predicate SweepCompletes(a: Act, w: World, sweep: int) {
    SweepGoesOn(a, w, sweep) && !(a.SweepRelease? && a.sweep == sweep && !a.ok)
  }

  // A run on the list is dead, and its guard is still to be dropped or gone.
  ghost predicate SweepFrees(w: World, sweep: int, r: int) {
    sweep in w.sweeps && r in w.runs && r !in w.procs && (InTodo(w.sweeps[sweep].todo, r) || NotGuarded(w, r))
  }

  // Only a live run can claim.
  lemma NotGuardedKept(w: World, a: Act, r: int)
    requires Enabled(w, a) && r in w.runs && r !in w.procs && NotGuarded(w, r)
    ensures NotGuarded(Next(w, a), r)
  {
    hide NextRuns, NextProcs, NextSlots, NextSweeps, StuckListing, Stored;
  }

  lemma ReleasedIsNotGuarded(w: World, a: Act, r: int)
    requires Inv(w) && Enabled(w, a) && a.SweepRelease? && a.ok && w.sweeps[a.sweep].todo[0].run == r
    ensures NotGuarded(Next(w, a), r)
  {
    hide NextRuns, NextProcs, NextSlots, NextSweeps, StuckListing, Times, Owners, Open, Settled, SlotsCounted;
    hide SlotsUnique;
    assert ListedDead(w, w.sweeps[a.sweep].todo[0]);
  }

  lemma TodoAfter(w: World, a: Act, sweep: int, r: int)
    requires Enabled(w, a) && sweep in w.sweeps && SweepCompletes(a, w, sweep) && InTodo(w.sweeps[sweep].todo, r)
    ensures sweep in Next(w, a).sweeps
    ensures !InTodo(Next(w, a).sweeps[sweep].todo, r) ==>
              a.SweepRelease? && a.ok && a.sweep == sweep && w.sweeps[sweep].todo[0].run == r
  {
    hide NextRuns, NextProcs, NextSlots, NextAutos, StuckListing;
    var s := w.sweeps[sweep];
    var i :| 0 <= i < |s.todo| && s.todo[i].run == r;
    if a.SweepRelease? && a.sweep == sweep {
      if i > 0 {
        assert s.todo[1..][i - 1].run == r;
      }
    } else {
      assert Next(w, a).sweeps[sweep].todo == s.todo;
    }
  }

  lemma SweepStays(w: World, a: Act, sweep: int)
    requires Enabled(w, a) && sweep in w.sweeps && SweepGoesOn(a, w, sweep)
    ensures sweep in Next(w, a).sweeps
  {
    hide NextRuns, NextProcs, NextSlots, NextAutos, StuckListing;
  }

  lemma SweepFreesKept(w: World, a: Act, sweep: int, r: int)
    requires Inv(w) && Enabled(w, a) && SweepCompletes(a, w, sweep) && SweepFrees(w, sweep, r)
    ensures SweepFrees(Next(w, a), sweep, r)
  {
    hide Next, NotGuarded;
    DeadStaysDead(w, a, r);
    SweepStays(w, a, sweep);
    if NotGuarded(w, r) {
      NotGuardedKept(w, a, r);
    } else {
      TodoAfter(w, a, sweep, r);
      if !InTodo(Next(w, a).sweeps[sweep].todo, r) {
        ReleasedIsNotGuarded(w, a, r);
      }
    }
  }

  lemma ListedWillBeFreed(w: World, a: Act, r: int)
    requires Inv(w) && Timely(w) && a.SweepList? && Enabled(w, a) && r in a.listed
    ensures SweepFrees(Next(w, a), a.sweep, r)
  {
    var p :| 0 <= p < |a.listed| && a.listed[p] == r;
    assert r in StuckRuns(w.runs, a.readAt - CLAIM_STALE_AFTER);
    assert Next(w, a).sweeps[a.sweep].todo[p].run == r;
  }

  lemma {:induction false} FreedUntilDone(tr: seq<World>, acts: seq<Act>, i: nat, j: nat, sweep: int, r: int)
    requires History(tr, acts) && AllTimely(tr) && i < j < |tr|
    requires acts[i].SweepList? && acts[i].sweep == sweep && r in acts[i].listed
    requires forall k :: i <= k < j ==> SweepCompletes(acts[k], tr[k], sweep)
    ensures SweepFrees(tr[j], sweep, r)
  {
    hide Next, Inv, SweepFrees;
    InvHolds(tr, acts, j - 1);
    assert Timely(tr[j - 1]);
    if j == i + 1 {
      ListedWillBeFreed(tr[i], acts[i], r);
    } else {
      FreedUntilDone(tr, acts, i, j - 1, sweep, r);
      SweepFreesKept(tr[j - 1], acts[j - 1], sweep, r);
    }
  }

  /** A run in progress past the lease when a sweep lists, below the limit, is
      failed with nothing pending, and no guard names it, once the sweep is
      through; whatever else happens meanwhile. */
  lemma SweepSettlesOldRuns(tr: seq<World>, acts: seq<Act>, i: nat, j: nat, r: int)
    requires History(tr, acts) && AllTimely(tr) && i < j < |tr|
    requires acts[i].SweepList? && |acts[i].listed| < MAX_LIMIT
    requires r in tr[i].runs && tr[i].runs[r].status == InProgress
    requires tr[i].runs[r].startedAt < acts[i].readAt - CLAIM_STALE_AFTER
    requires forall k :: i <= k < j ==> SweepCompletes(acts[k], tr[k], acts[i].sweep)
    requires acts[i].sweep in tr[j].sweeps && tr[j].sweeps[acts[i].sweep].todo == []
    ensures r in tr[j].runs && tr[j].runs[r].status == Failed && NoPending(tr[j].runs[r].steps) && NotGuarded(tr[j], r)
  {
    hide Next, Init;
    assert Enabled(tr[i], acts[i]);
    assert r in StuckRuns(tr[i].runs, acts[i].readAt - CLAIM_STALE_AFTER);
    SweptRunIsFailed(tr, acts, i, j, acts[i].sweep, r);
    FreedUntilDone(tr, acts, i, j, acts[i].sweep, r);
  }

  /** In every reachable state the slots held on a node are the runs inside
      execute there, at most ten; and a schedule slot has at most one run. */
  lemma SlotsAndSlotKeys(tr: seq<World>, acts: seq<Act>, n: nat, node: int)
    requires History(tr, acts) && AllTimely(tr) && n < |tr|
    ensures SlotsOf(tr[n].slots, node) == |InExecute(tr[n], node)| <= MAX_CONCURRENT_RUNS
    ensures SlotsUnique(tr[n].runs)
  {
    InvHolds(tr, acts, n);
  }
}
