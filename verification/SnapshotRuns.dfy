/** Scheduled snapshot runs (database_scheduler.go, query/database_snapshot_runs.query.go):
    claim by unique insert, skip on overrun, the stuck-run sweep and the closing
    of runs by worker replies, interleaved statement by statement. */
module SnapshotRuns {
  import opened Base

  const RUN_TIMEOUT := 2 * HOUR
  const MAX_LIMIT := 500

  datatype Status = Claimed | Running | Completed | Failed | Skipped
  datatype Row = Row(instance: int, slot: int, status: Status, snapshot: Option<int>)
  type Rows = map<int, Row>

  predicate IsOpen(row: Row) {
    row.status == Claimed || row.status == Running
  }

  // HasRunInFlight: another open run of the instance.
  predicate InFlight(rows: Rows, instance: int, exclude: int) {
    exists r :: r in rows && r != exclude && rows[r].instance == instance && IsOpen(rows[r])
  }

  predicate SlotTaken(rows: Rows, instance: int, slot: int) {
    exists r :: r in rows && rows[r].instance == instance && rows[r].slot == slot
  }

  function SetStatus(rows: Rows, run: int, status: Status): Rows {
    if run in rows then rows[run := rows[run].(status := status)] else rows
  }

  function Overdue(rows: Rows, cutoff: int): set<int> {
    set r | r in rows && IsOpen(rows[r]) && rows[r].slot < cutoff
  }

  // What ListStuckSnapshotRuns may return: distinct overdue runs, all of them
  // unless the limit cut the list.
  ghost predicate StuckListing(rows: Rows, cutoff: int, listed: seq<int>) {
    && |listed| <= MAX_LIMIT && Distinct(listed)
    && (forall i :: 0 <= i < |listed| ==> listed[i] in Overdue(rows, cutoff))
    && (|listed| < MAX_LIMIT ==> forall r :: r in Overdue(rows, cutoff) ==> r in listed)
  }

  ghost predicate Distinct(s: seq<int>) {
    forall i, j :: 0 <= i < j < |s| ==> s[i] != s[j]
  }

  // ── The protocol ───────────────────────────────────────────────────────────

  // Where dispatchSlot is with the run it claimed.
  datatype Dispatch =
    | Idle
    | Holding(run: int)              // claimed, overlap not yet checked
    | Overrun(run: int)              // another run is in flight: will skip
    | Cleared(run: int)              // nothing in flight: may start
    | Started(run: int, snapshot: int)

  datatype World = World(rows: Rows, nextRun: int, dispatch: Dispatch, sweeps: map<int, seq<int>>,
                         closers: map<int, (int, bool)>)

  datatype Act =
    | ClaimSlot(instance: int, slot: int)
    | Check(readOk: bool)
    | Skip(ok: bool)                          // stale slot, overrun, database or worker not ready
    | StartSnapshot(snapshot: int)
    | StartFails(ok: bool)
    | MarkRunning(ok: bool)
    | SchedulerDies
    | SweepList(sweep: int, cutoff: int, listed: seq<int>)
    | SweepFail(sweep: int, ok: bool)
    | FindRun(closer: int, snapshot: int, run: int, succeeded: bool)  // the end of a snapshot, and its run
    | CloseRun(closer: int, ok: bool)

  ghost predicate Enabled(w: World, a: Act) {
    match a
    case ClaimSlot(_, _) => w.dispatch.Idle?
    case Check(_) => w.dispatch.Holding? && w.dispatch.run in w.rows
    case Skip(_) => w.dispatch.Holding? || w.dispatch.Overrun? || w.dispatch.Cleared?
    case StartSnapshot(_) => w.dispatch.Cleared?
    case StartFails(_) => w.dispatch.Cleared?
    case MarkRunning(_) => w.dispatch.Started? && w.dispatch.run in w.rows
    case SchedulerDies => true
    case SweepList(sweep, cutoff, listed) => sweep !in w.sweeps && StuckListing(w.rows, cutoff, listed)
    case SweepFail(sweep, _) => sweep in w.sweeps && w.sweeps[sweep] != []
    case FindRun(closer, snapshot, run, _) =>
      closer !in w.closers && run in w.rows && w.rows[run].snapshot == Some(snapshot)
    case CloseRun(closer, _) => closer in w.closers
  }

  function Write(w: World, run: int, status: Status, ok: bool): World {
    if ok then w.(rows := SetStatus(w.rows, run, status)) else w
  }

  function Next(w: World, a: Act): World
    requires Enabled(w, a)
  {
    match a
    case ClaimSlot(instance, slot) =>
      if SlotTaken(w.rows, instance, slot) then w
      else w.(rows := w.rows[w.nextRun := Row(instance, slot, Claimed, None)], nextRun := w.nextRun + 1,
              dispatch := Holding(w.nextRun))
    case Check(readOk) =>
      var run := w.dispatch.run;
      w.(dispatch := if readOk && InFlight(w.rows, w.rows[run].instance, run) then Overrun(run) else Cleared(run))
    case Skip(ok) => Write(w, w.dispatch.run, Skipped, ok).(dispatch := Idle)
    case StartSnapshot(snapshot) => w.(dispatch := Started(w.dispatch.run, snapshot))
    case StartFails(ok) => Write(w, w.dispatch.run, Failed, ok).(dispatch := Idle)
    case MarkRunning(ok) =>
      var run := w.dispatch.run;
      if ok then w.(rows := w.rows[run := w.rows[run].(status := Running, snapshot := Some(w.dispatch.snapshot))],
                    dispatch := Idle)
      else w.(dispatch := Idle)
    case SchedulerDies => w.(dispatch := Idle)
    case SweepList(sweep, _, listed) => w.(sweeps := w.sweeps[sweep := listed])
    case SweepFail(sweep, ok) =>
      Write(w, w.sweeps[sweep][0], Failed, ok).(sweeps := w.sweeps[sweep := w.sweeps[sweep][1..]])
    case FindRun(closer, _, run, succeeded) => w.(closers := w.closers[closer := (run, succeeded)])
    case CloseRun(closer, ok) =>
      var (run, succeeded) := w.closers[closer];
      Write(w, run, if succeeded then Completed else Failed, ok).(closers := w.closers - {closer})
  }

  // ── At most one running ────────────────────────────────────────────────────

  ghost predicate OneRunning(rows: Rows) {
    forall r, q :: r in rows && q in rows && BothRunning(rows[r], rows[q]) ==> r == q
  }

  predicate BothRunning(a: Row, b: Row) {
    a.instance == b.instance && a.status == Running && b.status == Running
  }

  // Another run of the instance is running.
  ghost predicate RunningElsewhere(rows: Rows, instance: int, exclude: int) {
    exists r :: r in rows && r != exclude && rows[r].instance == instance && rows[r].status == Running
  }

  // A held run is in the table, never yet running; once cleared, no other runs.
  ghost predicate DispatchSound(w: World) {
    !w.dispatch.Idle? ==>
      && w.dispatch.run in w.rows && w.rows[w.dispatch.run].status != Running
      && (w.dispatch.Cleared? || w.dispatch.Started? ==>
            !RunningElsewhere(w.rows, w.rows[w.dispatch.run].instance, w.dispatch.run))
  }

  ghost predicate Inv(w: World) {
    OneRunning(w.rows) && DispatchSound(w) && forall r :: r in w.rows ==> r < w.nextRun
  }

  // Closing a row makes nothing run and nothing open.
  lemma ClosingKeeps(w: World, run: int, status: Status, ok: bool)
    requires Inv(w) && status != Running && status != Claimed
    ensures Inv(Write(w, run, status, ok))
  {
    var w' := Write(w, run, status, ok);
    assert forall r :: r in w'.rows ==> r in w.rows && w'.rows[r].instance == w.rows[r].instance
                                        && (IsOpen(w'.rows[r]) ==> w'.rows[r] == w.rows[r]);
  }

  lemma ClaimKeeps(w: World, instance: int, slot: int)
    requires Inv(w) && w.dispatch.Idle?
    ensures Inv(Next(w, ClaimSlot(instance, slot)))
  {
  }

  lemma MarkKeeps(w: World, ok: bool)
    requires Inv(w) && Enabled(w, MarkRunning(ok))
    ensures Inv(Next(w, MarkRunning(ok)))
  {
    var run := w.dispatch.run;
    assert forall r :: r in w.rows && r != run && w.rows[r].instance == w.rows[run].instance ==>
                         w.rows[r].status != Running;
  }

  // A check that could not be made, while another run of the instance is running.
  ghost predicate BlindCheck(w: World, a: Act) {
    && a.Check? && !a.readOk && w.dispatch.Holding? && w.dispatch.run in w.rows
    && RunningElsewhere(w.rows, w.rows[w.dispatch.run].instance, w.dispatch.run)
  }

  lemma CheckKeepsIff(w: World, readOk: bool)
    requires Inv(w) && Enabled(w, Check(readOk))
    ensures Inv(Next(w, Check(readOk))) <==> !BlindCheck(w, Check(readOk))
  {
    var run := w.dispatch.run;
    var instance := w.rows[run].instance;
    if RunningElsewhere(w.rows, instance, run) {
      var r :| r in w.rows && r != run && w.rows[r].instance == instance && w.rows[r].status == Running;
      assert IsOpen(w.rows[r]);
      assert InFlight(w.rows, instance, run);
    }
  }

  /** Every step keeps the invariant, except exactly a failed in-flight read over
      a running run. */
  lemma StepKeepsInvIff(w: World, a: Act)
    requires Inv(w) && Enabled(w, a)
    ensures Inv(Next(w, a)) <==> !BlindCheck(w, a)
  {
    match a
    case ClaimSlot(instance, slot) => ClaimKeeps(w, instance, slot);
    case Check(readOk) => CheckKeepsIff(w, readOk);
    case Skip(ok) => ClosingKeeps(w, w.dispatch.run, Skipped, ok);
    case StartFails(ok) => ClosingKeeps(w, w.dispatch.run, Failed, ok);
    case MarkRunning(ok) => MarkKeeps(w, ok);
    case SweepFail(sweep, ok) => ClosingKeeps(w, w.sweeps[sweep][0], Failed, ok);
    case CloseRun(closer, ok) =>
      ClosingKeeps(w, w.closers[closer].0, if w.closers[closer].1 then Completed else Failed, ok);
    case _ =>
  }

  ghost predicate History(tr: seq<World>, acts: seq<Act>) {
    && |tr| == |acts| + 1 && tr[0].dispatch.Idle? && Inv(tr[0])
    && forall i :: 0 <= i < |acts| ==> Enabled(tr[i], acts[i]) && tr[i + 1] == Next(tr[i], acts[i])
  }

  lemma {:induction false} InvHolds(tr: seq<World>, acts: seq<Act>, n: nat)
    requires History(tr, acts) && n < |tr| && forall i :: 0 <= i < n ==> !BlindCheck(tr[i], acts[i])
    ensures Inv(tr[n])
  {
    hide Next, Enabled, BlindCheck;
    if n > 0 {
      InvHolds(tr, acts, n - 1);
      StepKeepsInvIff(tr[n - 1], acts[n - 1]);
    }
  }

  /** With one scheduler loop, no instance ever has two runs in `running`, wherever
      sweeps, replies and restarts fall, unless an in-flight read failed while
      another run of the instance was running. */
  lemma AtMostOneRunning(tr: seq<World>, acts: seq<Act>, n: nat)
    requires History(tr, acts) && n < |tr| && forall i :: 0 <= i < n ==> !BlindCheck(tr[i], acts[i])
    ensures OneRunning(tr[n].rows)
  {
    InvHolds(tr, acts, n);
  }

  /** And then two do: over a running run the check clears a second one exactly if
      its read failed, and nothing stops that one from being marked as running. */
  lemma FailedReadOverlaps(w: World, busy: int, snapshot: int, readOk: bool)
    requires Inv(w) && w.dispatch.Holding? && busy in w.rows && busy != w.dispatch.run
    requires w.rows[busy].instance == w.rows[w.dispatch.run].instance && w.rows[busy].status == Running
    ensures var checked := Next(w, Check(readOk));
            && (checked.dispatch.Cleared? <==> !readOk)
            && (!readOk ==> var run := w.dispatch.run;
                            var after := Next(Next(checked, StartSnapshot(snapshot)), MarkRunning(true));
                            && after.rows[run].status == Running && after.rows[busy].status == Running
                            && !OneRunning(after.rows))
  {
    assert InFlight(w.rows, w.rows[w.dispatch.run].instance, w.dispatch.run);
    if !readOk {
      var run := w.dispatch.run;
      var after := Next(Next(Next(w, Check(readOk)), StartSnapshot(snapshot)), MarkRunning(true));
      assert after.rows[run].instance == after.rows[busy].instance;
    }
  }

  // ── The sweep cannot leave an instance blocked ─────────────────────────────

  // The dispatch in progress marks the run as running.
  predicate Marks(w: World, a: Act, r: int) {
    a.MarkRunning? && a.ok && w.dispatch.Started? && w.dispatch.run == r
  }

  // A write that closes the run.
  ghost predicate Closes(w: World, a: Act, r: int)
    requires Enabled(w, a)
  {
    match a
    case Skip(ok) => ok && w.dispatch.run == r
    case StartFails(ok) => ok && w.dispatch.run == r
    case SweepFail(sweep, ok) => ok && w.sweeps[sweep][0] == r
    case CloseRun(closer, ok) => ok && w.closers[closer].0 == r
    case _ => false
  }

  ghost predicate Ids(w: World) {
    forall r :: r in w.rows ==> r < w.nextRun
  }

  // Rows are only added; a run is open after a step exactly if the step marks
  // it, or it was open and the step does not close it.
  lemma OpenAfter(w: World, a: Act, r: int)
    requires Ids(w) && Enabled(w, a) && r in w.rows
    ensures r in Next(w, a).rows && Next(w, a).rows[r].instance == w.rows[r].instance
    ensures Next(w, a).rows[r].slot == w.rows[r].slot
    ensures IsOpen(Next(w, a).rows[r]) <==> Marks(w, a, r) || (IsOpen(w.rows[r]) && !Closes(w, a, r))
  {
    hide StuckListing, InFlight, SlotTaken, Overdue;
  }

  lemma IdsKept(w: World, a: Act)
    requires Ids(w) && Enabled(w, a)
    ensures Ids(Next(w, a)) && w.nextRun <= Next(w, a).nextRun
  {
    hide StuckListing, InFlight, SlotTaken, Overdue;
  }

  // Any run of the machine, whatever its reads return.
  ghost predicate Steps(tr: seq<World>, acts: seq<Act>) {
    && |tr| == |acts| + 1 && Ids(tr[0])
    && forall i :: 0 <= i < |acts| ==> Enabled(tr[i], acts[i]) && tr[i + 1] == Next(tr[i], acts[i])
  }

  lemma {:induction false} IdsHold(tr: seq<World>, acts: seq<Act>, n: nat)
    requires Steps(tr, acts) && n < |tr|
    ensures Ids(tr[n])
  {
    hide Next, Enabled, Ids;
    if n > 0 {
      IdsHold(tr, acts, n - 1);
      IdsKept(tr[n - 1], acts[n - 1]);
    }
  }

  lemma {:induction false} RowStays(tr: seq<World>, acts: seq<Act>, i: nat, j: nat, r: int)
    requires Steps(tr, acts) && i <= j < |tr| && r in tr[i].rows
    ensures r in tr[j].rows && tr[j].rows[r].instance == tr[i].rows[r].instance
    ensures tr[j].rows[r].slot == tr[i].rows[r].slot
  {
    hide Next, Enabled, Ids;
    if i < j {
      RowStays(tr, acts, i, j - 1, r);
      IdsHold(tr, acts, j - 1);
      OpenAfter(tr[j - 1], acts[j - 1], r);
    }
  }

  // Event k marks r, and nothing closes it before n.
  ghost predicate MarkedAndLeft(tr: seq<World>, acts: seq<Act>, k: nat, n: nat, r: int)
    requires Steps(tr, acts) && k < n <= |acts|
  {
    Marks(tr[k], acts[k], r) && forall m :: k < m < n ==> !Closes(tr[m], acts[m], r)
  }

  // A run closed at m is open at n exactly if it was marked in between and left so.
  lemma {:induction false} ReopenedIff(tr: seq<World>, acts: seq<Act>, m: nat, n: nat, r: int)
    requires Steps(tr, acts) && m <= n < |tr| && r in tr[m].rows && !IsOpen(tr[m].rows[r])
    ensures r in tr[n].rows
    ensures IsOpen(tr[n].rows[r]) <==> exists k :: m <= k < n && MarkedAndLeft(tr, acts, k, n, r)
  {
    hide Next, Enabled, Ids, Marks, Closes;
    if m < n {
      ReopenedIff(tr, acts, m, n - 1, r);
      IdsHold(tr, acts, n - 1);
      OpenAfter(tr[n - 1], acts[n - 1], r);
      if IsOpen(tr[n].rows[r]) {
        if Marks(tr[n - 1], acts[n - 1], r) {
          assert MarkedAndLeft(tr, acts, n - 1, n, r);
        } else {
          var k :| m <= k < n - 1 && MarkedAndLeft(tr, acts, k, n - 1, r);
          assert MarkedAndLeft(tr, acts, k, n, r);
        }
      }
      forall k | m <= k < n && MarkedAndLeft(tr, acts, k, n, r)
        ensures IsOpen(tr[n].rows[r])
      {
        if k < n - 1 {
          assert MarkedAndLeft(tr, acts, k, n - 1, r);
        }
      }
    }
  }

  // ── What a status means ────────────────────────────────────────────────────

  /** A claimed run is cleared to start exactly if the overlap check could not be
      made or found no other open run of its instance. */
  lemma CheckClearsIff(w: World, readOk: bool)
    requires Enabled(w, Check(readOk))
    ensures var run := w.dispatch.run;
            var open := exists r :: r in w.rows && r != run && w.rows[r].instance == w.rows[run].instance
                                    && (w.rows[r].status == Claimed || w.rows[r].status == Running);
            && (Next(w, Check(readOk)).dispatch == Cleared(run) <==> !readOk || !open)
            && (Next(w, Check(readOk)).dispatch == Overrun(run) <==> readOk && open)
  {
    var run := w.dispatch.run;
    if r :| r in w.rows && r != run && w.rows[r].instance == w.rows[run].instance
            && (w.rows[r].status == Claimed || w.rows[r].status == Running) {
      assert InFlight(w.rows, w.rows[run].instance, run);
    }
  }

  ghost predicate Writes(w: World, a: Act, r: int)
    requires Enabled(w, a)
  {
    Marks(w, a, r) || Closes(w, a, r)
  }

  lemma StatusAfter(w: World, a: Act, r: int)
    requires Ids(w) && Enabled(w, a) && r in w.rows
    ensures r in Next(w, a).rows
    ensures !Writes(w, a, r) ==> Next(w, a).rows[r].status == w.rows[r].status
    ensures Marks(w, a, r) ==>
              Next(w, a).rows[r].status == Running && Next(w, a).rows[r].snapshot == Some(w.dispatch.snapshot)
    ensures Closes(w, a, r) && a.Skip? ==> Next(w, a).rows[r].status == Skipped
    ensures Closes(w, a, r) && (a.StartFails? || a.SweepFail?) ==> Next(w, a).rows[r].status == Failed
    ensures Closes(w, a, r) && a.CloseRun? && w.closers[a.closer].1 ==> Next(w, a).rows[r].status == Completed
    ensures Closes(w, a, r) && a.CloseRun? && !w.closers[a.closer].1 ==> Next(w, a).rows[r].status == Failed
  {
    hide StuckListing, InFlight, SlotTaken, Overdue;
  }

  lemma NewIsClaimed(w: World, a: Act, r: int)
    requires Enabled(w, a) && r in Next(w, a).rows && r !in w.rows
    ensures Next(w, a).rows[r].status == Claimed
  {
    hide StuckListing, InFlight, SlotTaken, Overdue;
  }

  // Event k is the last write to r before n.
  ghost predicate LastWritten(tr: seq<World>, acts: seq<Act>, k: nat, n: nat, r: int)
    requires Steps(tr, acts)
  {
    && k < n <= |acts| && r in tr[k].rows && r in tr[n].rows && Writes(tr[k], acts[k], r)
    && r in tr[k + 1].rows && tr[k + 1].rows[r].status == tr[n].rows[r].status
    && forall m :: k < m < n ==> !Writes(tr[m], acts[m], r)
  }

  lemma {:induction false} LastWrite(tr: seq<World>, acts: seq<Act>, n: nat, r: int) returns (k: nat)
    requires Steps(tr, acts) && n < |tr| && r in tr[n].rows && r !in tr[0].rows && tr[n].rows[r].status != Claimed
    ensures LastWritten(tr, acts, k, n, r)
  {
    hide Next, Enabled, Ids, Writes;
    IdsHold(tr, acts, n - 1);
    if r !in tr[n - 1].rows {
      NewIsClaimed(tr[n - 1], acts[n - 1], r);
    }
    StatusAfter(tr[n - 1], acts[n - 1], r);
    if Writes(tr[n - 1], acts[n - 1], r) {
      k := n - 1;
    } else {
      k := LastWrite(tr, acts, n - 1, r);
    }
  }

  lemma CloserKept(w: World, a: Act, closer: int)
    requires Enabled(w, a) && closer in Next(w, a).closers
    ensures (closer in w.closers && Next(w, a).closers[closer] == w.closers[closer])
            || (a.FindRun? && a.closer == closer && Next(w, a).closers[closer] == (a.run, a.succeeded)
                && a.run in w.rows && w.rows[a.run].snapshot == Some(a.snapshot))
  {
    hide StuckListing, InFlight, SlotTaken, Overdue;
  }

  // Event i found the run that owns the snapshot whose end was reported.
  ghost predicate Found(tr: seq<World>, acts: seq<Act>, i: nat, closer: int, r: int, succeeded: bool)
    requires |tr| == |acts| + 1
  {
    && i < |acts| && acts[i].FindRun? && acts[i].closer == closer && acts[i].run == r && acts[i].succeeded == succeeded
    && r in tr[i].rows && tr[i].rows[r].snapshot == Some(acts[i].snapshot)
  }

  lemma {:induction false} CloserFound(tr: seq<World>, acts: seq<Act>, n: nat, closer: int) returns (i: nat)
    requires Steps(tr, acts) && n < |tr| && tr[0].closers == map[] && closer in tr[n].closers
    ensures i < n && Found(tr, acts, i, closer, tr[n].closers[closer].0, tr[n].closers[closer].1)
  {
    hide Next, Enabled;
    CloserKept(tr[n - 1], acts[n - 1], closer);
    if closer in tr[n - 1].closers && tr[n].closers[closer] == tr[n - 1].closers[closer] {
      i := CloserFound(tr, acts, n - 1, closer);
    } else {
      i := n - 1;
    }
  }

  // Event k recorded the end of the run's own snapshot.
  ghost predicate RecordsEnd(tr: seq<World>, acts: seq<Act>, k: nat, r: int, succeeded: bool)
    requires |tr| == |acts| + 1
  {
    && k < |acts| && acts[k].CloseRun? && acts[k].ok
    && exists i :: 0 <= i < k && Found(tr, acts, i, acts[k].closer, r, succeeded)
  }

  /** What the status of a run claimed in the history says about its last write.
      `completed` is a successful end of the run's own snapshot, `skipped` the
      dispatch that claimed it, before a snapshot was started, `failed` a failed
      end, a failed start or a sweep, `running` the snapshot its dispatch started. */
  lemma StatusMeans(tr: seq<World>, acts: seq<Act>, n: nat, r: int) returns (k: nat)
    requires Steps(tr, acts) && tr[0].closers == map[]
    requires n < |tr| && r in tr[n].rows && r !in tr[0].rows && tr[n].rows[r].status != Claimed
    ensures LastWritten(tr, acts, k, n, r)
    ensures tr[n].rows[r].status == Completed ==> RecordsEnd(tr, acts, k, r, true)
    ensures tr[n].rows[r].status == Skipped ==>
              acts[k].Skip? && !tr[k].dispatch.Idle? && !tr[k].dispatch.Started? && tr[k].dispatch.run == r
    ensures tr[n].rows[r].status == Failed ==>
              || RecordsEnd(tr, acts, k, r, false) || acts[k].SweepFail?
              || (acts[k].StartFails? && tr[k].dispatch == Cleared(r))
    ensures tr[n].rows[r].status == Running ==>
              && tr[k].dispatch.Started? && tr[k].dispatch.run == r
              && tr[k + 1].rows[r].snapshot == Some(tr[k].dispatch.snapshot)
  {
    hide Next;
    k := LastWrite(tr, acts, n, r);
    IdsHold(tr, acts, k);
    StatusAfter(tr[k], acts[k], r);
    if acts[k].CloseRun? {
      var i := CloserFound(tr, acts, k, acts[k].closer);
    }
  }

  /** And the other way: a recorded end decides the status of the run that owns the
      snapshot, until something writes it again. */
  lemma RecordedEndDecides(tr: seq<World>, acts: seq<Act>, k: nat, n: nat, r: int)
    requires Steps(tr, acts) && tr[0].closers == map[] && LastWritten(tr, acts, k, n, r) && acts[k].CloseRun?
    ensures tr[n].rows[r].status == Completed <==> tr[k].closers[acts[k].closer] == (r, true)
    ensures tr[n].rows[r].status == Failed <==> tr[k].closers[acts[k].closer] == (r, false)
  {
    hide Next;
    IdsHold(tr, acts, k);
    StatusAfter(tr[k], acts[k], r);
  }

  /** However a dispatch ends, the scheduler is free for the next slot; only a slot
      already taken leaves it so from the start. */
  lemma DispatchEnds(w: World, a: Act)
    requires Enabled(w, a)
    ensures a.Skip? || a.StartFails? || a.MarkRunning? || a.SchedulerDies? ==> Next(w, a).dispatch == Idle
    ensures a.StartSnapshot? ==> Next(w, a) == w.(dispatch := Started(w.dispatch.run, a.snapshot))
    ensures a.SweepList? || a.SweepFail? || a.FindRun? || a.CloseRun? ==> Next(w, a).dispatch == w.dispatch
  {
    hide StuckListing, InFlight, SlotTaken, Overdue;
  }

  /** A report of a snapshot's end closes the run that owns it, as `completed` or
      `failed`, whatever the run's status was, and no other. */
  lemma EndClosesOwner(w: World, closer: int, snapshot: int, run: int, succeeded: bool)
    requires Ids(w) && closer !in w.closers && run in w.rows && w.rows[run].snapshot == Some(snapshot)
    ensures var found := FindRun(closer, snapshot, run, succeeded);
            && Enabled(w, found) && Enabled(Next(w, found), CloseRun(closer, true))
            && var after := Next(Next(w, found), CloseRun(closer, true));
               && after.rows == w.rows[run := w.rows[run].(status := if succeeded then Completed else Failed)]
               && after.closers == w.closers
  {
  }

  // ── Slots ──────────────────────────────────────────────────────────────────

  predicate SameSlot(a: Row, b: Row) {
    a.instance == b.instance && a.slot == b.slot
  }

  // One run per instance and slot.
  ghost predicate SlotsUnique(rows: Rows) {
    forall r, q :: r in rows && q in rows && SameSlot(rows[r], rows[q]) ==> r == q
  }

  /** A slot is claimed, with one new run, exactly if its instance has no run for
      it yet. */
  lemma ClaimWinsIff(w: World, instance: int, slot: int)
    requires Ids(w) && Enabled(w, ClaimSlot(instance, slot))
    ensures var w' := Next(w, ClaimSlot(instance, slot));
            var free := forall r :: r in w.rows ==> !(w.rows[r].instance == instance && w.rows[r].slot == slot);
            && (w'.dispatch.Holding? <==> free)
            && (free ==>
                  && w'.dispatch.run !in w.rows
                  && w'.rows == w.rows[w'.dispatch.run := Row(instance, slot, Claimed, None)])
            && (!free ==> w' == w)
  {
  }

  lemma SlotsUniqueKept(w: World, a: Act)
    requires Ids(w) && Enabled(w, a) && SlotsUnique(w.rows)
    ensures SlotsUnique(Next(w, a).rows)
  {
    hide InFlight, StuckListing, Overdue;
    match a
    case ClaimSlot(instance, slot) => ClaimWinsIff(w, instance, slot);
    case _ =>
      var w' := Next(w, a);
      forall r, q | r in w'.rows && q in w'.rows && SameSlot(w'.rows[r], w'.rows[q])
        ensures r == q
      {
        OnlyClaimsAdd(w, a, r);
        OnlyClaimsAdd(w, a, q);
      }
  }

  lemma OnlyClaimsAdd(w: World, a: Act, r: int)
    requires Enabled(w, a) && !a.ClaimSlot? && r in Next(w, a).rows
    ensures r in w.rows && SameSlot(w.rows[r], Next(w, a).rows[r])
  {
    hide InFlight, StuckListing, Overdue;
  }

  /** In every run of the machine an instance has at most one run per slot. */
  lemma {:induction false} OneRunPerSlot(tr: seq<World>, acts: seq<Act>, n: nat)
    requires Steps(tr, acts) && n < |tr| && SlotsUnique(tr[0].rows)
    ensures SlotsUnique(tr[n].rows)
  {
    hide Next, Enabled, Ids, SlotsUnique;
    if n > 0 {
      OneRunPerSlot(tr, acts, n - 1);
      IdsHold(tr, acts, n - 1);
      SlotsUniqueKept(tr[n - 1], acts[n - 1]);
    }
  }

  /** A sweep lists open runs scheduled before its cutoff, and no others. */
  lemma SweepSparesYoung(w: World, a: Act, r: int)
    requires Enabled(w, a) && a.SweepList? && r in a.listed
    ensures r in w.rows && w.rows[r].slot < a.cutoff && (w.rows[r].status == Claimed || w.rows[r].status == Running)
  {
    var p :| 0 <= p < |a.listed| && a.listed[p] == r;
    assert r in Overdue(w.rows, a.cutoff);
  }

  // The sweep's writes succeed.
  predicate SweepWrites(a: Act, sweep: int) {
    a.SweepFail? && a.sweep == sweep ==> a.ok
  }

  lemma TodoAfter(w: World, a: Act, sweep: int, r: int)
    requires Enabled(w, a) && sweep in w.sweeps && r in w.sweeps[sweep]
    ensures sweep in Next(w, a).sweeps
    ensures r in Next(w, a).sweeps[sweep] || (a.SweepFail? && a.sweep == sweep && w.sweeps[sweep][0] == r)
  {
    hide StuckListing, InFlight, SlotTaken;
    var todo := w.sweeps[sweep];
    assert todo == [todo[0]] + todo[1..];
  }

  // A listed run is failed on the way through the list.
  lemma {:induction false} SweptAt(tr: seq<World>, acts: seq<Act>, i: nat, j: nat, sweep: int, r: int) returns (m: nat)
    requires Steps(tr, acts) && i <= j < |tr| && sweep in tr[i].sweeps && r in tr[i].sweeps[sweep] && r in tr[i].rows
    requires forall k :: i <= k < j ==> SweepWrites(acts[k], sweep)
    requires sweep in tr[j].sweeps && tr[j].sweeps[sweep] == []
    ensures i < m <= j && r in tr[m].rows && !IsOpen(tr[m].rows[r])
    decreases j - i
  {
    hide Next, Ids;
    assert Enabled(tr[i], acts[i]) && SweepWrites(acts[i], sweep);
    IdsHold(tr, acts, i);
    OpenAfter(tr[i], acts[i], r);
    TodoAfter(tr[i], acts[i], sweep, r);
    if r in tr[i + 1].sweeps[sweep] {
      m := SweptAt(tr, acts, i + 1, j, sweep, r);
    } else {
      m := i + 1;
    }
  }

  lemma ListedIsTodo(w: World, a: Act, r: int)
    requires Enabled(w, a) && a.SweepList? && r in a.listed
    ensures a.sweep in Next(w, a).sweeps && r in Next(w, a).sweeps[a.sweep] && r in Next(w, a).rows
  {
    var p :| 0 <= p < |a.listed| && a.listed[p] == r;
    assert r in Overdue(w.rows, a.cutoff);
  }

  // A sweep that listed at i has gone through its list by j, and could write.
  ghost predicate SweptThrough(tr: seq<World>, acts: seq<Act>, i: nat, j: nat)
    requires Steps(tr, acts)
  {
    && i < j < |tr| && acts[i].SweepList?
    && (forall k :: i < k < j ==> SweepWrites(acts[k], acts[i].sweep))
    && acts[i].sweep in tr[j].sweeps && tr[j].sweeps[acts[i].sweep] == []
  }

  /** Once a sweep has gone through its list, a listed run is open exactly if the
      dispatch in progress marked it after the sweep had failed it, and nothing
      closed it since. */
  lemma SweptUnlessRemarked(tr: seq<World>, acts: seq<Act>, i: nat, j: nat, r: int) returns (m: nat)
    requires Steps(tr, acts) && SweptThrough(tr, acts, i, j) && r in acts[i].listed
    ensures i < m <= j && r in tr[j].rows && r in tr[m].rows && !IsOpen(tr[m].rows[r])
    ensures IsOpen(tr[j].rows[r]) <==> exists k :: m <= k < j && MarkedAndLeft(tr, acts, k, j, r)
  {
    hide Next, Enabled;
    ListedIsTodo(tr[i], acts[i], r);
    m := SweptAt(tr, acts, i + 1, j, acts[i].sweep, r);
    ReopenedIff(tr, acts, m, j, r);
  }

  // The dispatch in progress is not about this run, and will never be.
  ghost predicate NotDispatched(w: World, r: int) {
    r < w.nextRun && (w.dispatch.Idle? || w.dispatch.run != r)
  }

  lemma NotDispatchedKept(w: World, a: Act, r: int)
    requires Enabled(w, a) && NotDispatched(w, r)
    ensures NotDispatched(Next(w, a), r) && !Marks(w, a, r)
  {
    hide StuckListing, InFlight, SlotTaken;
  }

  lemma {:induction false} NeverDispatchedAgain(tr: seq<World>, acts: seq<Act>, i: nat, j: nat, r: int)
    requires Steps(tr, acts) && i <= j < |tr| && NotDispatched(tr[i], r)
    ensures NotDispatched(tr[j], r)
  {
    hide Next, Enabled, NotDispatched;
    if i < j {
      NeverDispatchedAgain(tr, acts, i, j - 1, r);
      NotDispatchedKept(tr[j - 1], acts[j - 1], r);
    }
  }

  // Closed and not in dispatch, a run is closed for good.
  lemma ClosedForGood(tr: seq<World>, acts: seq<Act>, i: nat, n: nat, r: int)
    requires Steps(tr, acts) && i <= n < |tr| && NotDispatched(tr[i], r) && r in tr[i].rows && !IsOpen(tr[i].rows[r])
    ensures r in tr[n].rows && !IsOpen(tr[n].rows[r])
  {
    hide Next, Enabled, NotDispatched;
    ReopenedIff(tr, acts, i, n, r);
    if k :| i <= k < n && MarkedAndLeft(tr, acts, k, n, r) {
      NeverDispatchedAgain(tr, acts, i, k, r);
      NotDispatchedKept(tr[k], acts[k], r);
    }
  }

  /** An overdue run blocks no longer than until the next complete sweep: below
      the limit, a run overdue at the listing and not in dispatch is closed when
      the sweep is through, and stays closed for ever. */
  lemma OverdueRunIsClosedForGood(tr: seq<World>, acts: seq<Act>, i: nat, j: nat, n: nat, r: int)
    requires Steps(tr, acts) && SweptThrough(tr, acts, i, j) && |acts[i].listed| < MAX_LIMIT && j <= n < |tr|
    requires r in Overdue(tr[i].rows, acts[i].cutoff) && NotDispatched(tr[i], r)
    ensures r in tr[n].rows && !IsOpen(tr[n].rows[r])
  {
    hide Next, NotDispatched;
    assert Enabled(tr[i], acts[i]);
    assert r in acts[i].listed;
    var m := SweptUnlessRemarked(tr, acts, i, j, r);
    NeverDispatchedAgain(tr, acts, i, m, r);
    ClosedForGood(tr, acts, m, n, r);
  }

  /** So after a complete sweep an instance is blocked only by a run claimed since
      the listing, by one younger than the timeout, or by the one then in dispatch. */
  lemma BlockedOnlyByYoungRuns(tr: seq<World>, acts: seq<Act>, i: nat, j: nat, n: nat, instance: int, exclude: int)
    returns (r: int)
    requires Steps(tr, acts) && SweptThrough(tr, acts, i, j) && |acts[i].listed| < MAX_LIMIT && j <= n < |tr|
    requires InFlight(tr[n].rows, instance, exclude)
    ensures r in tr[n].rows && r != exclude && tr[n].rows[r].instance == instance && IsOpen(tr[n].rows[r])
    ensures r !in tr[i].rows || tr[n].rows[r].slot >= acts[i].cutoff || !NotDispatched(tr[i], r)
  {
    hide Next, Enabled, NotDispatched;
    r :| r in tr[n].rows && r != exclude && tr[n].rows[r].instance == instance && IsOpen(tr[n].rows[r]);
    if r in tr[i].rows && NotDispatched(tr[i], r) {
      RowStays(tr, acts, i, n, r);
      if !IsOpen(tr[i].rows[r]) {
        ClosedForGood(tr, acts, i, n, r);
      } else if r in Overdue(tr[i].rows, acts[i].cutoff) {
        OverdueRunIsClosedForGood(tr, acts, i, j, n, r);
      }
    }
  }

  /** The exception is real: a run still in dispatch when it comes due is failed by
      the sweep and then marked as running, with the sweep already through. */
  lemma RemarkReopens(w: World, sweep: int, cutoff: int)
    requires w.dispatch.Started? && Overdue(w.rows, cutoff) == {w.dispatch.run} && sweep !in w.sweeps
    ensures var acts := [SweepList(sweep, cutoff, [w.dispatch.run]), SweepFail(sweep, true), MarkRunning(true)];
            && Enabled(w, acts[0]) && Enabled(Next(w, acts[0]), acts[1])
            && Enabled(Next(Next(w, acts[0]), acts[1]), acts[2])
            && var after := Next(Next(Next(w, acts[0]), acts[1]), acts[2]);
               after.sweeps[sweep] == [] && w.dispatch.run in Overdue(after.rows, cutoff)
  {
    var r := w.dispatch.run;
    assert r in Overdue(w.rows, cutoff);
    var w1 := Next(w, SweepList(sweep, cutoff, [r]));
    assert w1.sweeps[sweep] == [r] && w1.rows == w.rows;
  }

  function Elements(s: seq<int>): set<int> {
    set i | 0 <= i < |s| :: s[i]
  }

  lemma {:induction false} DistinctCount(s: seq<int>)
    requires Distinct(s)
    ensures |Elements(s)| == |s|
  {
    if s != [] {
      var init, last := s[..|s| - 1], s[|s| - 1];
      DistinctCount(init);
      assert last !in Elements(init);
      assert Elements(s) == Elements(init) + {last} by {
        assert forall x :: x in Elements(s) ==> x == last || x in Elements(init) by {
          forall x | x in Elements(s)
            ensures x == last || x in Elements(init)
          {
            var i :| 0 <= i < |s| && s[i] == x;
            assert i < |init| ==> init[i] == x;
          }
        }
        assert forall x :: x in Elements(init) ==> x in Elements(s);
      }
    }
  }

  class Store {
    var rows: Rows
    var nextRun: int

    ghost predicate Valid()
      reads this
    {
      forall r :: r in rows ==> r < nextRun
    }

    constructor ()
      ensures Valid() && rows == map[]
    {
      rows, nextRun := map[], 1;
    }

    method ClaimSnapshotRun(instance: int, slot: int) returns (run: int, won: bool)
      requires Valid()
      modifies this
      ensures Valid() && (won <==> !SlotTaken(old(rows), instance, slot))
      ensures !won ==> rows == old(rows)
      ensures won ==> run !in old(rows) && rows == old(rows)[run := Row(instance, slot, Claimed, None)]
    {
      run := nextRun;
      won := !SlotTaken(rows, instance, slot);
      if won {
        rows := rows[run := Row(instance, slot, Claimed, None)];
        nextRun := nextRun + 1;
      }
    }

    method ListStuckSnapshotRuns(cutoff: int) returns (listed: seq<int>)
      ensures StuckListing(rows, cutoff, listed)
    {
      listed := [];
      var table := rows;
      var todo := Overdue(table, cutoff);
      while todo != {} && |listed| < MAX_LIMIT
        invariant todo <= Overdue(table, cutoff) && |listed| <= MAX_LIMIT
        invariant forall i :: 0 <= i < |listed| ==> listed[i] in Overdue(table, cutoff) && listed[i] !in todo
        invariant Distinct(listed)
        invariant forall r :: r in Overdue(table, cutoff) && r !in todo ==> r in listed
        decreases todo
      {
        var r := Pick(todo);
        listed := listed + [r];
        todo := todo - {r};
      }
    }

    /** failStuckRuns with successful writes: the number of overdue open runs
        falls by as many as there are, up to the limit of one sweep. */
    method FailStuckRuns(now: int)
      modifies this`rows
      ensures rows.Keys == old(rows).Keys
      ensures Overdue(rows, now - RUN_TIMEOUT) <= Overdue(old(rows), now - RUN_TIMEOUT)
      ensures |Overdue(rows, now - RUN_TIMEOUT)| ==
              |Overdue(old(rows), now - RUN_TIMEOUT)| - Min(MAX_LIMIT, |Overdue(old(rows), now - RUN_TIMEOUT)|)
      ensures forall r :: r in rows && r !in Overdue(old(rows), now - RUN_TIMEOUT) ==> rows[r] == old(rows)[r]
    {
      hide Overdue, StuckListing;
      var listed := ListStuckSnapshotRuns(now - RUN_TIMEOUT);
      var i := 0;
      while i < |listed|
        invariant i <= |listed| && rows == Failing(old(rows), listed[..i])
      {
        assert listed[..i + 1] == listed[..i] + [listed[i]];
        FailOneMore(old(rows), listed[..i], listed[i]);
        rows := SetStatus(rows, listed[i], Failed);
        i := i + 1;
      }
      assert listed[..i] == listed;
      SweepCounts(old(rows), listed, now - RUN_TIMEOUT);
    }
  }

  // The table with the runs of a list failed.
  function Failing(rows: Rows, listed: seq<int>): Rows {
    map r | r in rows :: if r in listed then rows[r].(status := Failed) else rows[r]
  }

  lemma FailOneMore(rows: Rows, done: seq<int>, r: int)
    ensures SetStatus(Failing(rows, done), r, Failed) == Failing(rows, done + [r])
  {
  }

  lemma OverdueAfter(rows: Rows, listed: seq<int>, cutoff: int)
    ensures Overdue(Failing(rows, listed), cutoff) == Overdue(rows, cutoff) - Elements(listed)
  {
    forall r
      ensures r in Overdue(Failing(rows, listed), cutoff) <==> r in Overdue(rows, cutoff) - Elements(listed)
    {
      assert r in Elements(listed) <==> r in listed;
    }
  }

  lemma ListedAreOverdue(rows: Rows, listed: seq<int>, cutoff: int)
    requires StuckListing(rows, cutoff, listed)
    ensures Elements(listed) <= Overdue(rows, cutoff) && |Elements(listed)| == |listed| <= MAX_LIMIT
    ensures |listed| < MAX_LIMIT ==> Elements(listed) == Overdue(rows, cutoff)
  {
    DistinctCount(listed);
    if |listed| < MAX_LIMIT {
      forall r | r in Overdue(rows, cutoff)
        ensures r in Elements(listed)
      {
        assert r in listed;
      }
    }
  }

  lemma Removed(all: set<int>, gone: set<int>)
    requires gone <= all
    ensures |all - gone| == |all| - |gone|
  {
    assert all == (all - gone) + gone;
  }

  lemma OthersKept(rows: Rows, listed: seq<int>, cutoff: int)
    requires StuckListing(rows, cutoff, listed)
    ensures forall r :: r in rows && r !in Overdue(rows, cutoff) ==> Failing(rows, listed)[r] == rows[r]
  {
    hide Overdue;
    forall r | r in listed
      ensures r in Overdue(rows, cutoff)
    {
    }
  }

  // Failing a listing takes exactly its runs out of the overdue ones.
  lemma SweepCounts(rows: Rows, listed: seq<int>, cutoff: int)
    requires StuckListing(rows, cutoff, listed)
    ensures Overdue(Failing(rows, listed), cutoff) <= Overdue(rows, cutoff)
    ensures |Overdue(Failing(rows, listed), cutoff)| ==
            |Overdue(rows, cutoff)| - Min(MAX_LIMIT, |Overdue(rows, cutoff)|)
    ensures forall r :: r in rows && r !in Overdue(rows, cutoff) ==> Failing(rows, listed)[r] == rows[r]
  {
    hide Overdue, StuckListing, Failing, Elements;
    OthersKept(rows, listed, cutoff);
    OverdueAfter(rows, listed, cutoff);
    ListedAreOverdue(rows, listed, cutoff);
    Removed(Overdue(rows, cutoff), Elements(listed));
  }
}
