/** The life of every firing, as one state machine over the tables, the live
    processes of every control-plane node and the sweeps in progress. Each SQL
    statement is one atomic step and may fail; a node may crash at any point.

    Clock readings are taken before the statement that uses them, so an action
    carries the earlier reading explicitly. */
module RunProtocol {
  import opened Base
  import opened AutomationSteps
  import opened RunTables

  // Where a firing's goroutine is, from the insert of its run row on.
  datatype Pc =
    | Created(mustSkip: bool)     // run row inserted; disabled or stale slots must skip
    | Slotted                     // inside execute, runner slot held
    | Claiming(readAt: int)       // clock read for the stale-claim bound
    | Overlapped                  // the guard is held: about to record a skip
    | Barred                      // the claim errored: about to record a failure
    | Guarded                     // claimed, not yet authorised
    | Executing                   // authorised, running steps
    | Recorded                    // verdict recorded, deferred release still to come
    | Unwinding                   // panicked past the claim: the release runs first
    | Recovered                   // panic handler: about to record a failure
    | Leaving                     // runner slot still to be returned

  // `actions` is what the automation was loaded with; `initial` the step list the
  // goroutine holds in memory since the insert; `firedAt` the clock reading that
  // became started_at; `entered` when it got where it is.
  datatype Proc = Proc(node: int, pc: Pc, actions: seq<Action>, initial: seq<StepResult>, firedAt: int, entered: int)

  // One entry of a stuck-run listing, as read.
  datatype Listed = Listed(run: int, automation: int, steps: seq<StepResult>)
  datatype Sweep = Sweep(node: int, todo: seq<Listed>, updated: bool)

  datatype World = World(now: int, autos: Automations, runs: Runs, nextRun: int,
                         procs: map<int, Proc>, slots: map<int, nat>, sweeps: map<int, Sweep>)

  datatype Act =
    | Tick(to: int)
    | Define(automation: int)
    | Retire(automation: int)
    | Fire(node: int, automation: int, slot: Option<int>, mustSkip: bool, readAt: int, actions: seq<Action>, lost: bool)
    | SkipEarly(run: int, ok: bool)
    | TakeSlot(run: int)
    | ReadClock(run: int)
    | TryClaim(run: int, since: int)
    | ClaimFails(run: int, since: int, applied: bool)
    | RecordEnd(run: int, ok: bool)
    | Authorised(run: int)
    | Persist(run: int, steps: seq<StepResult>, ok: bool)
    | Finish(run: int, status: RunStatus, steps: seq<StepResult>, ok: bool)
    | Panic(run: int)
    | DropGuard(run: int, ok: bool)
    | Leave(run: int)
    | Crash(node: int)
    | SweepList(sweep: int, node: int, readAt: int, listed: seq<int>)
    | SweepUpdate(sweep: int, ok: bool)
    | SweepRelease(sweep: int, ok: bool)

  predicate HoldsGuard(pc: Pc) {
    pc.Guarded? || pc.Executing? || pc.Recorded? || pc.Unwinding?
  }

  // About to record an end without a verdict of the step loop, or free to.
  predicate EndsEarly(pc: Pc) {
    pc.Overlapped? || pc.Barred? || pc.Recovered? || pc.Guarded?
  }

  predicate AllSucceeded(steps: seq<StepResult>) {
    forall j :: 0 <= j < |steps| ==> steps[j].status == StepSucceeded
  }

  // The run's verdict is still to be written.
  predicate Undecided(pc: Pc) {
    !pc.Recorded? && !pc.Leaving?
  }

  predicate HoldsSlot(pc: Pc) {
    !pc.Created?
  }

  function SlotsOf(slots: map<int, nat>, node: int): nat {
    if node in slots then slots[node] else 0
  }

  predicate At(w: World, run: int) {
    run in w.procs && run in w.runs
  }

  // ── Enabled ────────────────────────────────────────────────────────────────

  ghost predicate Enabled(w: World, a: Act) {
    match a
    case Tick(to) => w.now <= to
    case Define(automation) => automation !in w.autos
    case Retire(automation) => automation in w.autos
    case Fire(_, _, _, _, readAt, _, _) => readAt <= w.now
    case SkipEarly(run, _) =>
      At(w, run) && w.procs[run].pc.Created?
      && (w.procs[run].pc.mustSkip || SlotsOf(w.slots, w.procs[run].node) >= MAX_CONCURRENT_RUNS)
    case TakeSlot(run) =>
      At(w, run) && w.procs[run].pc == Created(false) && SlotsOf(w.slots, w.procs[run].node) < MAX_CONCURRENT_RUNS
    case ReadClock(run) => At(w, run) && w.procs[run].pc.Slotted?
    case TryClaim(run, since) => At(w, run) && w.procs[run].pc.Claiming? && w.procs[run].pc.readAt <= since <= w.now
    case ClaimFails(run, since, _) =>
      At(w, run) && w.procs[run].pc.Claiming? && w.procs[run].pc.readAt <= since <= w.now
    case RecordEnd(run, _) =>
      At(w, run) && EndsEarly(w.procs[run].pc)
    case Authorised(run) => At(w, run) && w.procs[run].pc.Guarded?
    case Persist(run, _, _) => At(w, run) && w.procs[run].pc.Executing?
    case Finish(run, status, steps, _) =>
      && At(w, run) && w.procs[run].pc.Executing? && NoPending(steps)
      && status == if AllSucceeded(steps) then Succeeded else Failed
    case Panic(run) => At(w, run) && HoldsSlot(w.procs[run].pc) && Undecided(w.procs[run].pc)
                       && !w.procs[run].pc.Unwinding? && !w.procs[run].pc.Recovered?
    case DropGuard(run, _) => At(w, run) && (w.procs[run].pc.Recorded? || w.procs[run].pc.Unwinding?)
    case Leave(run) => At(w, run) && w.procs[run].pc.Leaving?
    case Crash(_) => true
    case SweepList(sweep, _, readAt, listed) =>
      sweep !in w.sweeps && readAt <= w.now && StuckListing(w.runs, readAt - CLAIM_STALE_AFTER, listed)
    case SweepUpdate(sweep, _) => sweep in w.sweeps && w.sweeps[sweep].todo != [] && !w.sweeps[sweep].updated
    case SweepRelease(sweep, _) => sweep in w.sweeps && w.sweeps[sweep].todo != [] && w.sweeps[sweep].updated
  }

  // ── Effect, table by table ─────────────────────────────────────────────────

  function NextNow(w: World, a: Act): int {
    if a.Tick? then a.to else w.now
  }

  // The row a firing inserts.
  function NewRun(a: Act): RunRow
    requires a.Fire?
  {
    RunRow(a.automation, a.slot, InProgress, PendingSteps(a.actions), Stored(a.readAt))
  }

  // The process it starts.
  function NewProc(a: Act, now: int): Proc
    requires a.Fire?
  {
    Proc(a.node, Created(a.mustSkip), a.actions, NewRun(a).steps, a.readAt, now)
  }

  function StaleBefore(w: World, run: int): int
    requires At(w, run) && w.procs[run].pc.Claiming?
  {
    w.procs[run].pc.readAt - CLAIM_STALE_AFTER
  }

  // The claim statement; `applied` is false when it errored without effect.
  function ClaimedAutos(w: World, run: int, since: int, applied: bool): Automations
    requires At(w, run) && w.procs[run].pc.Claiming?
  {
    if applied then Claim(w.autos, w.runs[run].automation, run, Stored(since), StaleBefore(w, run)) else w.autos
  }

  function NextAutos(w: World, a: Act): Automations
    requires Enabled(w, a)
  {
    match a
    case Define(automation) => w.autos[automation := AutomationRow(true, Free)]
    case Retire(automation) => w.autos[automation := w.autos[automation].(active := false)]
    case TryClaim(run, since) => ClaimedAutos(w, run, since, true)
    case ClaimFails(run, since, applied) => ClaimedAutos(w, run, since, applied)
    case DropGuard(run, ok) => if ok then Release(w.autos, w.runs[run].automation, run) else w.autos
    case SweepRelease(sweep, ok) =>
      var e := w.sweeps[sweep].todo[0];
      if ok then Release(w.autos, e.automation, e.run) else w.autos
    case _ => w.autos
  }

  // A write of an outcome that may be lost.
  function Outcome(runs: Runs, run: int, status: RunStatus, steps: seq<StepResult>, ok: bool): Runs {
    if ok then SetOutcome(runs, run, status, steps) else runs
  }

  // skip writes `skipped`; every other early end is a failure. The list written
  // is built from the initial one, so a panic forgets the steps that ran.
  function NextRuns(w: World, a: Act): Runs
    requires Enabled(w, a)
  {
    match a
    case Fire(_, _, _, _, _, _, _) => w.runs[w.nextRun := NewRun(a)]
    case SkipEarly(run, ok) => Outcome(w.runs, run, Skipped, FinishPending(w.procs[run].initial, 0), ok)
    case RecordEnd(run, ok) =>
      Outcome(w.runs, run, if w.procs[run].pc.Overlapped? then Skipped else Failed,
              FinishPending(w.procs[run].initial, 0), ok)
    case Persist(run, steps, ok) => if ok then SetSteps(w.runs, run, steps) else w.runs
    case Finish(run, status, steps, ok) => Outcome(w.runs, run, status, steps, ok)
    case SweepUpdate(sweep, ok) =>
      var e := w.sweeps[sweep].todo[0];
      Outcome(w.runs, e.run, Failed, FinishPending(e.steps, 0), ok)
    case _ => w.runs
  }

  // The process a step moves, and where to. Only a refused run holds the guard
  // when its early end is recorded.
  function Moves(w: World, a: Act): (m: Option<(int, Pc)>)
    requires Enabled(w, a)
    ensures m.Some? ==> m.value.0 in w.procs
    ensures a.Fire? || a.SkipEarly? || a.Leave? || a.Crash? ==> m.None?
    ensures m.Some? && m.value.1.Claiming? ==> m.value.1.readAt == w.now
  {
    match a
    case TakeSlot(run) => Some((run, Slotted))
    case ReadClock(run) => Some((run, Claiming(w.now)))
    case TryClaim(run, _) =>
      Some((run, if Claimable(w.autos, w.runs[run].automation, StaleBefore(w, run)) then Guarded else Overlapped))
    case ClaimFails(run, _, _) => Some((run, Barred))
    case RecordEnd(run, _) => Some((run, if w.procs[run].pc.Guarded? then Recorded else Leaving))
    case Authorised(run) => Some((run, Executing))
    case Finish(run, _, _, _) => Some((run, Recorded))
    case Panic(run) => Some((run, if HoldsGuard(w.procs[run].pc) then Unwinding else Recovered))
    case DropGuard(run, _) => Some((run, if w.procs[run].pc.Recorded? then Leaving else Recovered))
    case _ => None
  }

  function NextProcs(w: World, a: Act): map<int, Proc>
    requires Enabled(w, a)
  {
    if a.Fire? then if a.lost then w.procs else w.procs[w.nextRun := NewProc(a, w.now)]
    else if a.SkipEarly? || a.Leave? then w.procs - {a.run}
    else if a.Crash? then map r | r in w.procs && w.procs[r].node != a.node :: w.procs[r]
    else match Moves(w, a)
      case None => w.procs
      case Some((run, pc)) => w.procs[run := w.procs[run].(pc := pc, entered := w.now)]
  }

  function NextSlots(w: World, a: Act): map<int, nat>
    requires Enabled(w, a)
  {
    match a
    case TakeSlot(run) => w.slots[w.procs[run].node := SlotsOf(w.slots, w.procs[run].node) + 1]
    case Leave(run) =>
      var left := SlotsOf(w.slots, w.procs[run].node) - 1;
      w.slots[w.procs[run].node := if left < 0 then 0 else left]
    case Crash(node) => w.slots[node := 0]
    case _ => w.slots
  }

  function Read(runs: Runs, listed: seq<int>): seq<Listed>
    requires forall i :: 0 <= i < |listed| ==> listed[i] in runs
  {
    seq(|listed|, i requires 0 <= i < |listed| => Listed(listed[i], runs[listed[i]].automation, runs[listed[i]].steps))
  }

  function NextSweeps(w: World, a: Act): map<int, Sweep>
    requires Enabled(w, a)
  {
    match a
    case Crash(node) => map k | k in w.sweeps && w.sweeps[k].node != node :: w.sweeps[k]
    case SweepList(sweep, node, _, listed) => w.sweeps[sweep := Sweep(node, Read(w.runs, listed), false)]
    case SweepUpdate(sweep, _) => w.sweeps[sweep := w.sweeps[sweep].(updated := true)]
    case SweepRelease(sweep, _) =>
      w.sweeps[sweep := w.sweeps[sweep].(todo := w.sweeps[sweep].todo[1..], updated := false)]
    case _ => w.sweeps
  }

  // A schedule slot already taken loses its insert: nothing changes.
  ghost predicate LosesInsert(w: World, a: Act) {
    a.Fire? && SlotTaken(w.runs, a.automation, a.slot)
  }

  ghost function Next(w: World, a: Act): World
    requires Enabled(w, a)
  {
    if LosesInsert(w, a) then w
    else World(NextNow(w, a), NextAutos(w, a), NextRuns(w, a), if a.Fire? then w.nextRun + 1 else w.nextRun,
               NextProcs(w, a), NextSlots(w, a), NextSweeps(w, a))
  }
}
