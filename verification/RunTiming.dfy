/** The run protocol with time: if no store call takes longer than d, how old a
    live run can get, and for which d the lease is long enough. */
module RunTiming {
  import opened Base
  import opened AutomationSteps
  import opened RunTables
  import opened RunProtocol
  import opened RunSafety
  import opened RunHistories

  // How long a process can stay where it is. Only store calls, the step loop
  // and its pauses take time; for the loop this is what follows from it.
  function Allowance(pc: Pc, d: nat): nat {
    match pc
    case Created(_) => 2 * d          // reread the row, then record a skip
    case Slotted => 0
    case Claiming(_) => d
    case Overlapped => 2 * d          // read the holder, record the skip
    case Barred => d
    case Guarded => 2 * d             // read the user, then record a refusal
    case Executing => LoopBound(d) + d
    case Recorded => d
    case Unwinding => d
    case Recovered => d
    case Leaving => 0
  }

  // A loop over the actions, entered at `from`, may still be running or recording
  // its verdict at `to`: some course of the loop, with store calls of at most d,
  // ends no more than one write earlier.
  ghost predicate LoopMayLast(actions: seq<Action>, from: int, to: int, d: nat) {
    exists works, steps, failedStep, ran: nat, exhausted ::
      LoopLasts(actions, works, steps, failedStep, ran, exhausted, from, to, d)
  }

  ghost predicate LoopLasts(actions: seq<Action>, works: seq<StepWork>, steps: seq<StepResult>, failedStep: Option<nat>,
                            ran: nat, exhausted: bool, from: int, to: int, d: nat) {
    && |works| == |actions| && AllWithin(works, d) && ran <= |actions|
    && RunShape(actions, works, from, steps, failedStep, ran, exhausted)
    && to <= StartOf(actions, works, from, ran) + d
  }

  ghost predicate MayStay(p: Proc, to: int, d: nat) {
    if p.pc.Executing? then LoopMayLast(p.actions, p.entered, to, d) else to <= p.entered + Allowance(p.pc, d)
  }

  lemma StayIsBounded(p: Proc, to: int, d: nat)
    requires MayStay(p, to, d)
    ensures to <= p.entered + Allowance(p.pc, d)
  {
    if p.pc.Executing? {
      var works, steps, failedStep, ran: nat, exhausted :|
        LoopLasts(p.actions, works, steps, failedStep, ran, exhausted, p.entered, to, d);
      ShapeInTime(p.actions, works, p.entered, steps, failedStep, ran, exhausted, d);
    }
  }

  // Time passes only while every live process may still be where it is; the
  // insert, the reread and the user read take one call each.
  ghost predicate Prompt(w: World, a: Act, d: nat) {
    match a
    case Tick(to) => forall r :: r in w.procs ==> MayStay(w.procs[r], to, d)
    case Fire(_, _, _, _, readAt, _, _) => w.now <= readAt + d
    case TakeSlot(run) => run in w.procs ==> w.now <= w.procs[run].entered + d
    case Authorised(run) => run in w.procs ==> w.now <= w.procs[run].entered + d
    case _ => true
  }

  // The latest a process gets where it is, after its clock reading.
  function Spent(pc: Pc, d: nat, panics: bool): nat {
    match pc
    case Created(_) => d
    case Slotted => 2 * d
    case Claiming(_) => 2 * d
    case Overlapped => 3 * d
    case Barred => 3 * d
    case Guarded => 3 * d
    case Executing => 4 * d
    case Recorded => LoopBound(d) + 5 * d
    case Unwinding => LoopBound(d) + 5 * d
    case Recovered => LoopBound(d) + 6 * d
    case Leaving => MaxAge(d, panics)
  }

  // The age of the oldest live run; a panic costs one more write.
  function MaxAge(d: nat, panics: bool): nat {
    RunBound(d) + if panics then d else 0
  }

  ghost predicate ProcTimed(w: World, r: int, d: nat, panics: bool)
    requires r in w.procs
  {
    var p := w.procs[r];
    && r in w.runs && w.runs[r].startedAt == Stored(p.firedAt)
    && p.entered <= p.firedAt + Spent(p.pc, d, panics)
    && w.now <= p.entered + Allowance(p.pc, d)
    && (!panics ==> !p.pc.Unwinding? && !p.pc.Recovered?)
  }

  ghost predicate Timed(w: World, d: nat, panics: bool) {
    Ids(w) && forall r :: r in w.procs ==> ProcTimed(w, r, d, panics)
  }

  // A move within the allowance adds up.
  lemma MoveIsTimed(w: World, a: Act, d: nat, panics: bool)
    requires Timed(w, d, panics) && Enabled(w, a) && Prompt(w, a, d) && (a.Panic? ==> panics) && Moves(w, a).Some?
    ensures var (run, pc) := Moves(w, a).value;
            && w.now <= w.procs[run].firedAt + Spent(pc, d, panics)
            && (!panics ==> !pc.Unwinding? && !pc.Recovered?)
  {
    var (run, pc) := Moves(w, a).value;
    assert ProcTimed(w, run, d, panics);
    hide Ids, StuckListing, Claimable, Stored, LoopBound, ProcTimed;
    assert RunBound(d) == LoopBound(d) + 6 * d;
  }

  lemma StepKeepsTimed(w: World, a: Act, d: nat, panics: bool)
    requires Timed(w, d, panics) && Enabled(w, a) && Prompt(w, a, d) && (a.Panic? ==> panics)
    ensures Timed(Next(w, a), d, panics)
  {
    IdsKept(w, a);
    RowsPersist(w, a);
    if Moves(w, a).Some? {
      MoveIsTimed(w, a, d, panics);
    }
    var w' := Next(w, a);
    assert w'.now == if a.Tick? then a.to else w.now;
    hide Next, Moves, Ids, Enabled, MayStay;
    forall r | r in w'.procs
      ensures ProcTimed(w', r, d, panics)
    {
      ProcAfter(w, a, r);
      if r !in w.runs {
        NewRow(w, a, r);
      }
      if r in w.procs && a.Tick? {
        StayIsBounded(w.procs[r], a.to, d);
      }
      assert r in w.procs ==> ProcTimed(w, r, d, panics);
    }
  }

  ghost predicate PromptHistory(tr: seq<World>, acts: seq<Act>, d: nat, panics: bool) {
    && History(tr, acts)
    && forall i :: 0 <= i < |acts| ==> Prompt(tr[i], acts[i], d) && (acts[i].Panic? ==> panics)
  }

  lemma {:induction false} TimedHolds(tr: seq<World>, acts: seq<Act>, n: nat, d: nat, panics: bool)
    requires PromptHistory(tr, acts, d, panics) && n < |tr|
    ensures Timed(tr[n], d, panics)
  {
    hide Next;
    if n > 0 {
      TimedHolds(tr, acts, n - 1, d, panics);
      StepKeepsTimed(tr[n - 1], acts[n - 1], d, panics);
    }
  }

  // What is spent and what is allowed never exceed the greatest age.
  lemma AgeIsBounded(w: World, r: int, d: nat, panics: bool)
    requires r in w.procs && ProcTimed(w, r, d, panics)
    ensures w.now <= w.procs[r].firedAt + MaxAge(d, panics)
  {
  }

  // Store calls fast enough for the lease.
  predicate FastEnough(d: nat, panics: bool) {
    d <= if panics then 4492 else SLOWEST_CALL
  }

  /** With fast enough store calls no live run outlasts the lease. */
  lemma PromptIsTimely(tr: seq<World>, acts: seq<Act>, d: nat, panics: bool)
    requires PromptHistory(tr, acts, d, panics) && FastEnough(d, panics)
    ensures AllTimely(tr)
  {
    forall i | 0 <= i < |tr|
      ensures Timely(tr[i])
    {
      TimedHolds(tr, acts, i, d, panics);
      forall r | r in tr[i].procs && r in tr[i].runs
        ensures tr[i].now <= tr[i].runs[r].startedAt + CLAIM_STALE_AFTER
      {
        AgeIsBounded(tr[i], r, d, panics);
      }
    }
  }

  /** With fast enough store calls, no crash and no lost write, every run is settled
      by the time the oldest live run can be that old. */
  lemma PromptRunsSettle(tr: seq<World>, acts: seq<Act>, n: nat, r: int, d: nat, panics: bool)
    requires PromptHistory(tr, acts, d, panics) && FastEnough(d, panics) && n < |tr|
    requires forall i :: 0 <= i < |acts| ==> Clean(acts[i])
    requires r in tr[n].runs && r !in tr[0].runs && tr[n].runs[r].startedAt + SECOND + MaxAge(d, panics) <= tr[n].now
    ensures r !in tr[n].procs && tr[n].runs[r].status != InProgress && NoPending(tr[n].runs[r].steps)
  {
    PromptIsTimely(tr, acts, d, panics);
    CleanRunsSettle(tr, acts, n);
    TimedHolds(tr, acts, n, d, panics);
    if r in tr[n].procs {
      AgeIsBounded(tr[n], r, d, panics);
    }
    SettledStepsDone(tr, acts, n, r);
  }

  // ── The bound is attained ──────────────────────────────────────────────────

  ghost predicate IsHistoryTo(tr: seq<World>, acts: seq<Act>, w: World, d: nat, panics: bool) {
    PromptHistory(tr, acts, d, panics) && tr[|acts|] == w
  }

  ghost predicate Reachable(w: World, d: nat, panics: bool) {
    exists tr, acts :: IsHistoryTo(tr, acts, w, d, panics)
  }

  lemma ReachableNext(w: World, a: Act, d: nat, panics: bool)
    requires Reachable(w, d, panics) && Enabled(w, a) && Prompt(w, a, d) && (a.Panic? ==> panics)
    ensures Reachable(Next(w, a), d, panics)
  {
    hide Next, Enabled, Prompt, Init;
    var tr, acts :| IsHistoryTo(tr, acts, w, d, panics);
    var tr', acts' := tr + [Next(w, a)], acts + [a];
    forall i | 0 <= i < |acts'|
      ensures Enabled(tr'[i], acts'[i]) && tr'[i + 1] == Next(tr'[i], acts'[i])
      ensures Prompt(tr'[i], acts'[i], d) && (acts'[i].Panic? ==> panics)
    {
      assert tr'[i] == tr[i] && tr'[i + 1] == if i < |acts| then tr[i + 1] else Next(w, a);
      assert acts'[i] == if i < |acts| then acts[i] else a;
    }
    assert IsHistoryTo(tr', acts', Next(w, a), d, panics);
  }

  // What a process does next, and to what.
  ghost predicate StepsTo(w: World, a: Act, w': World, d: nat) {
    Enabled(w, a) && Prompt(w, a, d) && Next(w, a) == w'
  }

  lemma Reaches(w: World, a: Act, w': World, d: nat, panics: bool)
    requires Reachable(w, d, panics) && StepsTo(w, a, w', d) && (a.Panic? ==> panics)
    ensures Reachable(w', d, panics)
  {
    hide Next, Enabled, Prompt, Reachable;
    ReachableNext(w, a, d, panics);
  }

  // One automation, and one run of its three slow actions, fired in the last
  // millisecond of a second.
  const FIRED := SECOND - 1

  function Row(status: RunStatus, steps: seq<StepResult>): RunRow {
    RunRow(0, None, status, steps, 0)
  }

  function OneProc(pc: Pc, entered: int): Proc {
    Proc(0, pc, SlowActions(), PendingSteps(SlowActions()), FIRED, entered)
  }

  function Alone(now: int, guard: Guard, row: RunRow, pc: Pc, entered: int): World {
    World(now, map[0 := AutomationRow(true, guard)], map[1 := row], 2, map[1 := OneProc(pc, entered)],
          if pc.Created? then map[] else map[0 := 1], map[])
  }

  function Fresh(): RunRow {
    Row(InProgress, PendingSteps(SlowActions()))
  }

  function Idle(now: int): World {
    World(now, map[0 := AutomationRow(true, Free)], map[], 1, map[], map[], map[])
  }

  function FireSlow(readAt: int): Act {
    Fire(0, 0, None, false, readAt, SlowActions(), false)
  }

  lemma AloneWaits(now: int, guard: Guard, row: RunRow, pc: Pc, entered: int, to: int, d: nat, panics: bool)
    requires Reachable(Alone(now, guard, row, pc, entered), d, panics)
    requires now <= to && MayStay(OneProc(pc, entered), to, d)
    ensures Reachable(Alone(to, guard, row, pc, entered), d, panics)
  {
    hide Reachable, MayStay;
    var w := Alone(now, guard, row, pc, entered);
    assert StepsTo(w, Tick(to), Alone(to, guard, row, pc, entered), d);
    Reaches(w, Tick(to), Alone(to, guard, row, pc, entered), d, panics);
  }

  lemma AloneStarts(d: nat, panics: bool)
    ensures Reachable(Idle(FIRED + d), d, panics)
  {
    var w0 := World(FIRED, map[], map[], 1, map[], map[], map[]);
    assert IsHistoryTo([w0], [], w0, d, panics);
    hide Reachable;
    assert StepsTo(w0, Define(0), Idle(FIRED), d);
    Reaches(w0, Define(0), Idle(FIRED), d, panics);
    assert StepsTo(Idle(FIRED), Tick(FIRED + d), Idle(FIRED + d), d);
    Reaches(Idle(FIRED), Tick(FIRED + d), Idle(FIRED + d), d, panics);
  }

  lemma FireAlone(d: nat)
    ensures StepsTo(Idle(FIRED + d), FireSlow(FIRED), Alone(FIRED + d, Free, Fresh(), Created(false), FIRED + d), d)
  {
    var w, a := Idle(FIRED + d), FireSlow(FIRED);
    assert Stored(FIRED) == 0;
    hide PendingSteps, SlowActions;
    assert NextRuns(w, a) == map[1 := Fresh()];
    assert NextProcs(w, a) == map[1 := OneProc(Created(false), FIRED + d)];
  }

  lemma TakeSlotAlone(now: int, entered: int, d: nat)
    requires now <= entered + d
    ensures StepsTo(Alone(now, Free, Fresh(), Created(false), entered), TakeSlot(1),
                    Alone(now, Free, Fresh(), Slotted, now), d)
  {
    hide PendingSteps, SlowActions;
    var w, a := Alone(now, Free, Fresh(), Created(false), entered), TakeSlot(1);
    assert NextProcs(w, a) == map[1 := OneProc(Slotted, now)];
    assert NextSlots(w, a) == map[0 := 1];
  }

  lemma ReadAlone(now: int, d: nat)
    ensures StepsTo(Alone(now, Free, Fresh(), Slotted, now), ReadClock(1),
                    Alone(now, Free, Fresh(), Claiming(now), now), d)
  {
    hide PendingSteps, SlowActions;
    var w, a := Alone(now, Free, Fresh(), Slotted, now), ReadClock(1);
    assert NextProcs(w, a) == map[1 := OneProc(Claiming(now), now)];
  }

  lemma ClaimAlone(now: int, readAt: int, entered: int, d: nat)
    requires readAt <= now
    ensures StepsTo(Alone(now, Free, Fresh(), Claiming(readAt), entered), TryClaim(1, now),
                    Alone(now, Held(1, Stored(now)), Fresh(), Guarded, now), d)
  {
    hide PendingSteps, SlowActions;
    var w, a := Alone(now, Free, Fresh(), Claiming(readAt), entered), TryClaim(1, now);
    assert NextProcs(w, a) == map[1 := OneProc(Guarded, now)];
    assert NextAutos(w, a) == map[0 := AutomationRow(true, Held(1, Stored(now)))];
  }

  lemma AuthoriseAlone(now: int, guard: Guard, entered: int, d: nat)
    requires now <= entered + d
    ensures StepsTo(Alone(now, guard, Fresh(), Guarded, entered), Authorised(1),
                    Alone(now, guard, Fresh(), Executing, now), d)
  {
    hide PendingSteps, SlowActions;
    var w, a := Alone(now, guard, Fresh(), Guarded, entered), Authorised(1);
    assert NextProcs(w, a) == map[1 := OneProc(Executing, now)];
  }

  lemma FinishAlone(now: int, guard: Guard, entered: int, steps: seq<StepResult>, ok: bool, d: nat)
    requires NoPending(steps) && !AllSucceeded(steps)
    ensures StepsTo(Alone(now, guard, Fresh(), Executing, entered), Finish(1, Failed, steps, ok),
                    Alone(now, guard, if ok then Row(Failed, steps) else Fresh(), Recorded, now), d)
  {
    hide PendingSteps, SlowActions, NoPending, AllSucceeded;
    var w, a := Alone(now, guard, Fresh(), Executing, entered), Finish(1, Failed, steps, ok);
    assert NextProcs(w, a) == map[1 := OneProc(Recorded, now)];
    assert NextRuns(w, a) == map[1 := if ok then Row(Failed, steps) else Fresh()];
  }

  lemma PanicAlone(now: int, guard: Guard, entered: int, d: nat)
    ensures StepsTo(Alone(now, guard, Fresh(), Executing, entered), Panic(1),
                    Alone(now, guard, Fresh(), Unwinding, now), d)
  {
    hide PendingSteps, SlowActions;
    var w, a := Alone(now, guard, Fresh(), Executing, entered), Panic(1);
    assert NextProcs(w, a) == map[1 := OneProc(Unwinding, now)];
  }

  lemma DropAlone(now: int, since: int, entered: int, d: nat)
    ensures StepsTo(Alone(now, Held(1, since), Fresh(), Unwinding, entered), DropGuard(1, true),
                    Alone(now, Free, Fresh(), Recovered, now), d)
  {
    hide PendingSteps, SlowActions;
    var w, a := Alone(now, Held(1, since), Fresh(), Unwinding, entered), DropGuard(1, true);
    assert NextProcs(w, a) == map[1 := OneProc(Recovered, now)];
    assert NextAutos(w, a) == map[0 := AutomationRow(true, Free)];
  }

  lemma AloneTakesSlot(d: nat, panics: bool)
    ensures Reachable(Alone(FIRED + 2 * d, Free, Fresh(), Slotted, FIRED + 2 * d), d, panics)
  {
    hide StepsTo, Reachable, Alone, Fresh, FireSlow;
    var t := FIRED + d;
    AloneStarts(d, panics);
    FireAlone(d);
    Reaches(Idle(t), FireSlow(FIRED), Alone(t, Free, Fresh(), Created(false), t), d, panics) by {
      assert !FireSlow(FIRED).Panic? by {
        FireIsFire(FIRED);
      }
    }
    AloneWaits(t, Free, Fresh(), Created(false), t, t + d, d, panics);
    TakeSlotAlone(t + d, t, d);
    Reaches(Alone(t + d, Free, Fresh(), Created(false), t), TakeSlot(1), Alone(t + d, Free, Fresh(), Slotted, t + d), d,
            panics);
  }

  lemma FireIsFire(readAt: int)
    ensures FireSlow(readAt).Fire?
  {
  }

  lemma AloneClaims(d: nat, panics: bool) returns (since: int)
    ensures Reachable(Alone(FIRED + 3 * d, Held(1, since), Fresh(), Guarded, FIRED + 3 * d), d, panics)
  {
    hide StepsTo, Reachable, Alone, Fresh;
    AloneTakesSlot(d, panics);
    var t := FIRED + 2 * d;
    ReadAlone(t, d);
    Reaches(Alone(t, Free, Fresh(), Slotted, t), ReadClock(1), Alone(t, Free, Fresh(), Claiming(t), t), d, panics);
    AloneWaits(t, Free, Fresh(), Claiming(t), t, t + d, d, panics);
    since := Stored(t + d);
    ClaimAlone(t + d, t, t, d);
    Reaches(Alone(t + d, Free, Fresh(), Claiming(t), t), TryClaim(1, t + d),
            Alone(t + d, Held(1, since), Fresh(), Guarded, t + d), d, panics);
  }

  // When the verdict of the slow run is due.
  function SlowEnd(d: nat): int {
    FIRED + LoopBound(d) + 5 * d - 1
  }

  lemma SlowLoopLasts(d: nat, clock: int)
    ensures LoopMayLast(SlowActions(), clock, clock + LoopBound(d) + d - 1, d)
  {
    SlowLoop(d, clock);
    hide RunShape, AllWithin, SlowActions, SlowWorks, SlowSteps, StartOf;
    assert |SlowActions()| == |SlowWorks(d)| == 3 by {
      ThreeSlow(d);
    }
    assert LoopLasts(SlowActions(), SlowWorks(d), SlowSteps(d, clock), Some(3), 3, false, clock,
                     clock + LoopBound(d) + d - 1, d);
  }

  lemma ThreeSlow(d: nat)
    ensures |SlowActions()| == |SlowWorks(d)| == 3
  {
  }

  // The slow loop takes as long as it does.
  lemma AloneExecutes(d: nat, panics: bool) returns (since: int)
    ensures Reachable(Alone(SlowEnd(d), Held(1, since), Fresh(), Executing, FIRED + 4 * d), d, panics)
  {
    hide Reachable, LoopBound, StepsTo, Alone, Fresh;
    since := AloneClaims(d, panics);
    var t := FIRED + 4 * d;
    AloneWaits(t - d, Held(1, since), Fresh(), Guarded, t - d, t, d, panics);
    AuthoriseAlone(t, Held(1, since), t - d, d);
    Reaches(Alone(t, Held(1, since), Fresh(), Guarded, t - d), Authorised(1),
            Alone(t, Held(1, since), Fresh(), Executing, t), d, panics);
    SlowLoopLasts(d, t);
    BoundIsPositive(d);
    AloneWaits(t, Held(1, since), Fresh(), Executing, t, SlowEnd(d), d, panics);
  }

  lemma BoundIsPositive(d: nat)
    ensures LoopBound(d) >= RUN_BUDGET
  {
  }

  lemma SlowStepsFail(d: nat, clock: int)
    ensures !AllSucceeded(SlowSteps(d, clock))
  {
    SlowStarts(d, clock);
    assert SlowSteps(d, clock)[2].status == StepFailed;
  }

  // The verdict takes its write, which may be lost, and the release its own.
  lemma SlowFinish(d: nat, ok: bool, panics: bool) returns (since: int)
    ensures var row := if ok then Row(Failed, SlowSteps(d, FIRED + 4 * d)) else Fresh();
            Reachable(Alone(SlowEnd(d) + d, Held(1, since), row, Recorded, SlowEnd(d)), d, panics)
  {
    hide Reachable, SlowEnd, StepsTo, Alone, Fresh, Row;
    since := AloneExecutes(d, panics);
    var t, clock := SlowEnd(d), FIRED + 4 * d;
    var steps := SlowSteps(d, clock);
    SlowLoop(d, clock);
    SlowStepsFail(d, clock);
    FinishAlone(t, Held(1, since), clock, steps, ok, d);
    var row := if ok then Row(Failed, steps) else Fresh();
    Reaches(Alone(t, Held(1, since), Fresh(), Executing, clock), Finish(1, Failed, steps, ok),
            Alone(t, Held(1, since), row, Recorded, t), d, panics);
    AloneWaits(t, Held(1, since), row, Recorded, t, t + d, d, panics);
  }

  lemma SlowPanic(d: nat)
    ensures Reachable(Alone(SlowEnd(d) + 2 * d, Free, Fresh(), Recovered, SlowEnd(d) + d), d, true)
  {
    hide Reachable, SlowEnd, StepsTo, Alone, Fresh;
    var since := AloneExecutes(d, true);
    var t := SlowEnd(d);
    PanicAlone(t, Held(1, since), FIRED + 4 * d, d);
    Reaches(Alone(t, Held(1, since), Fresh(), Executing, FIRED + 4 * d), Panic(1),
            Alone(t, Held(1, since), Fresh(), Unwinding, t), d, true);
    AloneWaits(t, Held(1, since), Fresh(), Unwinding, t, t + d, d, true);
    DropAlone(t + d, since, t, d);
    Reaches(Alone(t + d, Held(1, since), Fresh(), Unwinding, t), DropGuard(1, true),
            Alone(t + d, Free, Fresh(), Recovered, t + d), d, true);
    AloneWaits(t + d, Free, Fresh(), Recovered, t + d, t + 2 * d, d, true);
  }

  // The slow run, still live, at the greatest age but one millisecond.
  lemma SlowIsLive(d: nat, panics: bool) returns (w: World)
    ensures Reachable(w, d, panics) && w.now == FIRED + MaxAge(d, panics) - 1
    ensures 1 in w.procs && 1 in w.runs && w.runs[1].startedAt == 0
  {
    hide Reachable;
    if panics {
      SlowPanic(d);
      w := Alone(SlowEnd(d) + 2 * d, Free, Fresh(), Recovered, SlowEnd(d) + d);
    } else {
      var since := SlowFinish(d, true, false);
      w := Alone(SlowEnd(d) + d, Held(1, since), Row(Failed, SlowSteps(d, FIRED + 4 * d)), Recorded, SlowEnd(d));
    }
  }

  /** Every live run stays within its lease exactly for store calls of at most
      4.866 s, or of at most 4.492 s where runs may panic: beyond that a run of
      three ordinary actions outlasts it. */
  lemma LeaseSufficesIff(d: nat, panics: bool)
    ensures (forall w :: Reachable(w, d, panics) ==> Timely(w)) <==> FastEnough(d, panics)
  {
    if FastEnough(d, panics) {
      forall w | Reachable(w, d, panics)
        ensures Timely(w)
      {
        var tr, acts :| IsHistoryTo(tr, acts, w, d, panics);
        PromptIsTimely(tr, acts, d, panics);
      }
    } else {
      var w := SlowIsLive(d, panics);
      hide Reachable;
      assert !Timely(w);
    }
  }
}
