/** One managed database's row and everything that writes its status, health and
    last error (database_lifecycle.go), with the two handlers that decide what to
    write: worker replies and observed state (database_handlers.go). */
module DatabaseLifecycle {
  import opened Base

  datatype Status = Pending | Provisioning | Running | Stopped | Restarting | Degraded | Deleting | Error
  datatype Health = HealthNone | Starting | Healthy | Unhealthy

  datatype Code = ProvisionTimeout | CreateFailed | StartFailed | StopFailed | RemoveFailed | RestartLoop | InitFailed
                | ContainerMissing | WorkerOffline | RestoreFailed | BackupStale

  // What an error message says; equal texts are equal messages.
  datatype Text = FromWorker(message: string) | Restarts(count: int) | Hint(hint: string) | NotPresent
                | VolumeUnconfirmed | NotRetired | StuckIn(status: Status) | DeleteStuck(connected: bool) | Disconnected
                | NoBackupSince(last: Option<int>)

  datatype DbError = DbError(code: Code, text: Text)

  datatype Row = Row(active: bool, status: Status, health: Health, lastError: Option<DbError>,
                     startedAt: Option<int>, volumeSize: Option<int>, pendingFinalSnapshot: bool)

  // A row with the number of events recorded against it.
  datatype Db = Db(row: Row, events: nat)

  predicate Transitional(s: Status) {
    s == Pending || s == Provisioning || s == Restarting || s == Deleting
  }

  // ── Lifecycle operations, on a loaded row ──────────────────────────────────
  // Loading filters on `active`: on a retired row every operation is a no-op.

  function SetHealth(d: Db, health: Health): Db {
    if !d.row.active || d.row.health == health then d
    else Db(d.row.(health := health), d.events + 1)
  }

  function Transition(d: Db, to: Status, err: Option<DbError>, startedAt: Option<int>): Db {
    var r := d.row;
    var clear := err.None? && r.lastError.Some? && (to == Running || to == Stopped);
    var changed := err.Some? && r.lastError != err;
    if !r.active || (r.status == to && !clear && !changed && startedAt.None?) then d
    else
      var lastError := if clear then None else if err.Some? then err else r.lastError;
      var started := if startedAt.Some? then startedAt else r.startedAt;
      var moved := Db(r.(status := to, lastError := lastError, startedAt := started), d.events);
      var settled := if to != Running && to != Degraded then SetHealth(moved, HealthNone) else moved;
      settled.(events := settled.events + 1)
  }

  function BeginDeleting(d: Db): Db {
    Transition(d, Deleting, None, None)
  }

  // The row after FinalizeDeletion, and whether it took the reply.
  function FinalizeDeletion(d: Db, volumeRemoved: bool, writeOk: bool): (Db, bool) {
    if !d.row.active || d.row.status != Deleting then (d, false)
    else if !volumeRemoved then (Transition(d, Error, Some(DbError(RemoveFailed, VolumeUnconfirmed)), None), true)
    else if !writeOk then (Transition(d, Error, Some(DbError(RemoveFailed, NotRetired)), None), true)
    else (Db(d.row.(active := false), d.events + 1), true)
  }

  function SetWarning(d: Db, warning: DbError): Db {
    var e := d.row.lastError;
    if !d.row.active || (e.Some? && (e.value.code == warning.code || d.row.status == Error)) then d
    else Db(d.row.(lastError := Some(warning)), d.events + 1)
  }

  function ClearWarning(d: Db, code: Code): Db {
    if !d.row.active || d.row.lastError.None? || d.row.lastError.value.code != code then d
    else Db(d.row.(lastError := None), d.events + 1)
  }

  // ── Worker replies ─────────────────────────────────────────────────────────

  datatype Command = DbCreate | DbStart | DbStop | DbRestart | DbRemove | DbRestore | OtherCommand
  datatype Phase = Ack | Completed | PhaseFailed
  datatype Reply = Reply(command: Command, phase: Phase, message: string, absent: bool, volumeRemoved: bool)

  function ActionOutcome(c: Command): Option<Status> {
    match c
    case DbStop => Some(Stopped)
    case DbRemove => Some(Stopped)
    case OtherCommand => None
    case _ => Some(Running)
  }

  function FailureCode(c: Command): Code {
    match c
    case DbStart => StartFailed
    case DbRestart => StartFailed
    case DbStop => StopFailed
    case DbRemove => RemoveFailed
    case DbRestore => RestoreFailed
    case _ => CreateFailed
  }

  function Recorded(d: Db): Db {
    d.(events := d.events + 1)
  }

  // What dbInstanceStatus sees.
  predicate SeenDeleting(d: Db) {
    d.row.active && d.row.status == Deleting
  }

  function CompletedReply(d: Db, reply: Reply, now: int, writeOk: bool): Db {
    if reply.command == DbRemove && FinalizeDeletion(d, reply.volumeRemoved, writeOk).1
    then FinalizeDeletion(d, reply.volumeRemoved, writeOk).0
    else match ActionOutcome(reply.command)
      case None => Recorded(d)
      case Some(next) => Transition(d, next, None, if next == Running then Some(now) else None)
  }

  function HandleStatus(d: Db, reply: Reply, now: int, writeOk: bool): Db {
    if reply.command == DbCreate && SeenDeleting(d) then Recorded(d)
    else match reply.phase
      case Ack => if reply.command == DbCreate then Transition(d, Provisioning, None, None) else Recorded(d)
      case Completed => CompletedReply(d, reply, now, writeOk)
      case PhaseFailed =>
        if reply.command == DbRemove && reply.absent && !SeenDeleting(d) then Transition(d, Stopped, None, None)
        else Transition(d, Error, Some(DbError(FailureCode(reply.command), FromWorker(reply.message))), None)
  }

  // ── Observed state ─────────────────────────────────────────────────────────

  datatype ObsState = ObsRunning | ObsExited | ObsCreated | ObsDead | ObsPaused | ObsRestarting | ObsOther
  // `health` is None when the report carries none the control plane knows.
  datatype Obs = Obs(state: ObsState, health: Option<Health>, restartCount: int, fatalHint: Option<string>,
                     volumeSize: int)

  predicate RestartLooping(o: Obs) {
    o.restartCount >= 3 && (o.state == ObsRestarting || o.fatalHint.Some?)
  }

  function LoopError(o: Obs): DbError {
    if o.fatalHint.Some? then DbError(InitFailed, Hint(o.fatalHint.value))
    else DbError(RestartLoop, Restarts(o.restartCount))
  }

  predicate CreateFailedRow(r: Row) {
    r.status == Error && r.lastError.Some? && r.lastError.value.code == CreateFailed
  }

  function NoteVolume(d: Db, seen: Row, o: Obs): Db {
    if o.volumeSize > 0 && seen.volumeSize != Some(o.volumeSize)
    then d.(row := d.row.(volumeSize := Some(o.volumeSize)))
    else d
  }

  function ReconcileAbsent(d: Db, seen: Row): Db {
    var quiet := SetHealth(d, HealthNone);
    if Transitional(seen.status) || seen.status == Error || seen.status == Stopped then quiet
    else Transition(quiet, Error, Some(DbError(ContainerMissing, NotPresent)), None)
  }

  function ReconcileHealth(d: Db, o: Obs): Db {
    if o.state != ObsRunning && o.state != ObsPaused then SetHealth(d, HealthNone)
    else if o.health.Some? then SetHealth(d, o.health.value)
    else d
  }

  function ReconcilePresent(d: Db, seen: Row, o: Obs, now: int): Db {
    if RestartLooping(o) then Transition(d, Degraded, Some(LoopError(o)), None)
    else match o.state
      case ObsRunning =>
        if CreateFailedRow(seen) then d
        else if seen.status != Running then
          ReconcileHealth(Transition(d, Running, None, if seen.startedAt.None? then Some(now) else None), o)
        else ReconcileHealth(d, o)
      case ObsPaused => ReconcileHealth(d, o)
      case ObsRestarting => ReconcileHealth(d, o)
      case ObsOther => ReconcileHealth(d, o)
      case _ =>
        if seen.status == Deleting then d
        else if seen.status != Stopped && seen.status != Error then
          ReconcileHealth(Transition(d, Stopped, None, None), o)
        else ReconcileHealth(d, o)
  }

  // reconcileDatabaseInstance: `seen` is the row as the sync listed it, which may
  // be older than the row being written.
  function Reconcile(d: Db, seen: Row, report: Option<Obs>, now: int): Db {
    match report
    case None => ReconcileAbsent(d, seen)
    case Some(o) => ReconcilePresent(NoteVolume(d, seen, o), seen, o, now)
  }

  // A sync handled in one piece: what it listed is what it writes.
  function Sync(d: Db, report: Option<Obs>, now: int): Db {
    if d.row.active then Reconcile(d, d.row, report, now) else d
  }

  // Each kind of report is a fixpoint after one application.
  lemma AbsentSettles(d: Db, now: int, later: int)
    ensures Sync(Sync(d, None, now), None, later) == Sync(d, None, now)
  {
  }

  lemma LoopSettles(d: Db, o: Obs, now: int, later: int)
    requires RestartLooping(o)
    ensures Sync(Sync(d, Some(o), now), Some(o), later) == Sync(d, Some(o), now)
  {
  }

  lemma RunningSettles(d: Db, o: Obs, now: int, later: int)
    requires !RestartLooping(o) && o.state == ObsRunning
    ensures Sync(Sync(d, Some(o), now), Some(o), later) == Sync(d, Some(o), now)
  {
  }

  lemma StoppedSettles(d: Db, o: Obs, now: int, later: int)
    requires !RestartLooping(o) && (o.state == ObsExited || o.state == ObsCreated || o.state == ObsDead)
    ensures Sync(Sync(d, Some(o), now), Some(o), later) == Sync(d, Some(o), now)
  {
  }

  lemma OtherSettles(d: Db, o: Obs, now: int, later: int)
    requires !RestartLooping(o) && (o.state == ObsPaused || o.state == ObsRestarting || o.state == ObsOther)
    ensures Sync(Sync(d, Some(o), now), Some(o), later) == Sync(d, Some(o), now)
  {
  }

  /** Level-triggered: the same report applied again changes nothing and records
      nothing, whenever it comes. */
  lemma SyncIsIdempotent(d: Db, report: Option<Obs>, now: int, later: int)
    ensures Sync(Sync(d, report, now), report, later) == Sync(d, report, now)
  {
    hide Sync;
    match report
    case None => AbsentSettles(d, now, later);
    case Some(o) =>
      if RestartLooping(o) {
        LoopSettles(d, o, now, later);
      } else if o.state == ObsRunning {
        RunningSettles(d, o, now, later);
      } else if o.state == ObsExited || o.state == ObsCreated || o.state == ObsDead {
        StoppedSettles(d, o, now, later);
      } else {
        OtherSettles(d, o, now, later);
      }
  }

  // ── What each report leads to ──────────────────────────────────────────────

  // Three restarts or more, still restarting or with a cause the worker knows.
  predicate ReportsLoop(o: Obs) {
    o.restartCount >= 3 && (o.state == ObsRestarting || o.fatalHint.Some?)
  }

  predicate HasCode(r: Row, code: Code) {
    r.lastError.Some? && r.lastError.value.code == code
  }

  /** A "running" report leads to `running` from every status, except exactly
      where a restart loop is reported or a failed create is on record. It clears
      the error and stamps a missing start when it moves the row, and the health
      it reports is the health recorded. */
  lemma RunningReportDecides(d: Db, o: Obs, now: int)
    requires d.row.active && o.state == ObsRunning && !ReportsLoop(o)
    ensures var r := Sync(d, Some(o), now).row;
            var barred := d.row.status == Error && HasCode(d.row, CreateFailed);
            && (r.status == Running <==> !barred)
            && (barred ==> r.status == Error && r.lastError == d.row.lastError && r.health == d.row.health)
            && (!barred && o.health.Some? ==> r.health == o.health.value)
            && (!barred && d.row.status != Running ==>
                  r.lastError.None? && r.startedAt == if d.row.startedAt.Some? then d.row.startedAt else Some(now))
            && (d.row.status == Running ==> r.lastError == d.row.lastError && r.startedAt == d.row.startedAt)
  {
  }

  /** A looping one leads to `degraded` from every status, with the cause the
      worker recognised or else the number of restarts. */
  lemma LoopingReportDecides(d: Db, o: Obs, now: int)
    requires d.row.active && ReportsLoop(o)
    ensures var r := Sync(d, Some(o), now).row;
            && r.status == Degraded && r.health == d.row.health
            && r.lastError == Some(if o.fatalHint.Some? then DbError(InitFailed, Hint(o.fatalHint.value))
                                   else DbError(RestartLoop, Restarts(o.restartCount)))
  {
  }

  /** A stopped one leads to `stopped`, without an error or a health, from every
      status exactly outside `deleting` and `error`; a delete in flight is left as
      it is, an error keeps its reason. */
  lemma StoppedReportDecides(d: Db, o: Obs, now: int)
    requires d.row.active && (o.state == ObsExited || o.state == ObsCreated || o.state == ObsDead) && !ReportsLoop(o)
    ensures var r := Sync(d, Some(o), now).row;
            && (r.status == Stopped <==> d.row.status != Deleting && d.row.status != Error)
            && (d.row.status == Deleting ==> r == d.row.(volumeSize := r.volumeSize))
            && (d.row.status != Deleting ==> r.health == HealthNone)
            && (d.row.status == Error || d.row.status == Stopped ==>
                  r.status == d.row.status && r.lastError == d.row.lastError)
            && (r.status != d.row.status ==> r.lastError.None?)
  {
  }

  /** A missing container leads to `error` with ContainerMissing exactly from
      `running` and `degraded`, and leaves every other status; it has no health. */
  lemma AbsentReportDecides(d: Db, now: int)
    requires d.row.active
    ensures var r := Sync(d, None, now).row;
            var missed := d.row.status == Running || d.row.status == Degraded;
            && r.health == HealthNone
            && (missed ==> r.status == Error && r.lastError == Some(DbError(ContainerMissing, NotPresent)))
            && (!missed ==> r.status == d.row.status && r.lastError == d.row.lastError)
  {
  }

  /** Paused, restarting and unknown states move no status and no error; only a
      paused container still has a health. */
  lemma OtherReportDecides(d: Db, o: Obs, now: int)
    requires d.row.active && (o.state == ObsPaused || o.state == ObsRestarting || o.state == ObsOther)
    requires !ReportsLoop(o)
    ensures var r := Sync(d, Some(o), now).row;
            && r.status == d.row.status && r.lastError == d.row.lastError && r.startedAt == d.row.startedAt
            && r.health == if o.state != ObsPaused then HealthNone
                           else if o.health.Some? then o.health.value else d.row.health
  {
  }

  /** Whatever else it says, a report that measures the volume records its size,
      and no report touches what is not its business. */
  lemma ReportNotesVolume(d: Db, report: Option<Obs>, now: int)
    requires d.row.active
    ensures var r := Sync(d, report, now).row;
            && r.active && r.pendingFinalSnapshot == d.row.pendingFinalSnapshot
            && r.volumeSize == if report.Some? && report.value.volumeSize > 0 then Some(report.value.volumeSize)
                               else d.row.volumeSize
  {
  }

  /** Confluence: whatever two histories did to the row, the next "running"
      report brings them to one status, and to one health if it carries any. */
  lemma RunningReportConfluent(d: Db, d': Db, o: Obs, now: int)
    requires d.row.active && d'.row.active && o.state == ObsRunning
    requires !RestartLooping(o) && !CreateFailedRow(d.row) && !CreateFailedRow(d'.row)
    ensures Sync(d, Some(o), now).row.status == Sync(d', Some(o), now).row.status
    ensures o.health.Some? ==> Sync(d, Some(o), now).row.health == Sync(d', Some(o), now).row.health
  {
    RunningReportDecides(d, o, now);
    RunningReportDecides(d', o, now);
    hide Sync;
  }

  /** `deleting` is not protected from syncs: a delete in flight survives a report
      exactly when the report shows the container neither running nor looping. */
  lemma DeletingSurvivesIff(d: Db, report: Option<Obs>, now: int)
    requires d.row.active && d.row.status == Deleting
    ensures Sync(d, report, now).row.status == Deleting <==>
            report.None? || (report.value.state != ObsRunning && !RestartLooping(report.value))
  {
  }

  /** An instance in error or degraded carries an error, if it did before; leaving
      for running or stopped clears it. */
  ghost predicate Explained(r: Row) {
    r.status == Error || r.status == Degraded ==> r.lastError.Some?
  }

  lemma TransitionExplains(d: Db, to: Status, err: Option<DbError>, startedAt: Option<int>)
    requires Explained(d.row) && (to == Error || to == Degraded ==> err.Some?)
    ensures Explained(Transition(d, to, err, startedAt).row)
    ensures d.row.active && (to == Running || to == Stopped) && err.None? ==>
              Transition(d, to, err, startedAt).row.lastError.None?
    ensures d.row.active ==> Transition(d, to, err, startedAt).row.status == to
    ensures Transition(Transition(d, to, err, startedAt), to, err, None) == Transition(d, to, err, startedAt)
  {
  }

  /** The row after a transition, part by part: an error given is the error kept,
      one not given is cleared by `running` and `stopped` alone; a start time given
      is stamped; health survives only in `running` and `degraded`; nothing else
      moves. An event is recorded exactly if anything changed or a start was given. */
  lemma TransitionDecides(d: Db, to: Status, err: Option<DbError>, startedAt: Option<int>)
    requires d.row.active
    ensures var d' := Transition(d, to, err, startedAt);
            && d'.row.status == to && d'.row.active
            && d'.row.pendingFinalSnapshot == d.row.pendingFinalSnapshot && d'.row.volumeSize == d.row.volumeSize
            && d'.row.lastError == (if err.Some? then err
                                    else if to == Running || to == Stopped then None else d.row.lastError)
            && d'.row.startedAt == (if startedAt.Some? then startedAt else d.row.startedAt)
            && (to == Running || to == Degraded ==> d'.row.health == d.row.health)
            && (to != Running && to != Degraded && to != d.row.status ==> d'.row.health == HealthNone)
            && (d'.events > d.events <==> d'.row != d.row || startedAt.Some?)
  {
  }

  /** A health is written, with one event, exactly if it is news about an active
      row. */
  lemma HealthDecides(d: Db, health: Health)
    ensures SetHealth(d, health).row == if d.row.active then d.row.(health := health) else d.row
    ensures SetHealth(d, health).events == d.events + if d.row.active && d.row.health != health then 1 else 0
  {
  }

  /** A warning never moves the status. It is raised exactly on an active row that
      carries no error, or one of another code while not in `error`; it is taken
      back exactly if it is the one carried. */
  lemma WarningDecides(d: Db, warning: DbError, code: Code)
    ensures SetWarning(d, warning).row == d.row.(lastError := SetWarning(d, warning).row.lastError)
    ensures SetWarning(d, warning) != d <==>
              d.row.active && !HasCode(d.row, warning.code) && (d.row.lastError.None? || d.row.status != Error)
    ensures SetWarning(d, warning) != d ==>
              SetWarning(d, warning).row.lastError == Some(warning) && SetWarning(d, warning).events == d.events + 1
    ensures ClearWarning(d, code) ==
            if d.row.active && HasCode(d.row, code) then Db(d.row.(lastError := None), d.events + 1) else d
  {
  }

  // ── What each reply leads to ───────────────────────────────────────────────

  /** A completed command: creates, starts, restarts and restores lead to
      `running`, started now and without an error; stops, and removals outside a
      delete, to `stopped`; a create finishing under a delete moves nothing. */
  lemma CompletedDecides(d: Db, reply: Reply, now: int, writeOk: bool)
    requires d.row.active && reply.phase == Completed
    ensures var r := HandleStatus(d, reply, now, writeOk).row;
            match reply.command
            case DbCreate =>
              if d.row.status == Deleting then r == d.row
              else r.status == Running && r.startedAt == Some(now) && r.lastError.None?
            case DbStart => r.status == Running && r.startedAt == Some(now) && r.lastError.None?
            case DbRestart => r.status == Running && r.startedAt == Some(now) && r.lastError.None?
            case DbRestore => r.status == Running && r.startedAt == Some(now) && r.lastError.None?
            case DbStop => r.status == Stopped && r.startedAt == d.row.startedAt && r.lastError.None?
            case DbRemove =>
              if d.row.status != Deleting then r.active && r.status == Stopped && r.lastError.None?
              else if reply.volumeRemoved && writeOk then r == d.row.(active := false)
              else r.active && r.status == Error && HasCode(r, RemoveFailed)
            case OtherCommand => r == d.row
  {
  }

  /** A failed command leads to `error` with the command's own code and the
      worker's message, except a removal of what was already absent outside a
      delete, and a create failing under a delete. */
  lemma FailedDecides(d: Db, reply: Reply, now: int, writeOk: bool)
    requires d.row.active && reply.phase == PhaseFailed
    ensures var r := HandleStatus(d, reply, now, writeOk).row;
            if reply.command == DbCreate && d.row.status == Deleting then r == d.row
            else if reply.command == DbRemove && reply.absent && d.row.status != Deleting then
              r.status == Stopped && r.lastError.None?
            else
              && r.status == Error && r.lastError.Some? && r.lastError.value.text == FromWorker(reply.message)
              && match reply.command
                 case DbStart => HasCode(r, StartFailed)
                 case DbRestart => HasCode(r, StartFailed)
                 case DbStop => HasCode(r, StopFailed)
                 case DbRemove => HasCode(r, RemoveFailed)
                 case DbRestore => HasCode(r, RestoreFailed)
                 case DbCreate => HasCode(r, CreateFailed)
                 case OtherCommand => HasCode(r, CreateFailed)
  {
  }

  /** An acknowledgement moves a row only for a create outside a delete, to
      `provisioning`. */
  lemma AckDecides(d: Db, reply: Reply, now: int, writeOk: bool)
    requires d.row.active && reply.phase == Ack
    ensures var r := HandleStatus(d, reply, now, writeOk).row;
            if reply.command == DbCreate && d.row.status != Deleting
            then r.status == Provisioning && r.lastError == d.row.lastError
            else r == d.row
  {
  }

  /** Every reply about an active database leaves an event, except a completed stop
      or removal that finds nothing to change, and a failure already on record. A
      reply that moves nothing leaves exactly one, and so does retiring the row. */
  lemma ReplyIsRecorded(d: Db, reply: Reply, now: int, writeOk: bool)
    requires d.row.active
    ensures var d' := HandleStatus(d, reply, now, writeOk);
            && (d'.row != d.row ==> d'.events > d.events)
            && (!d'.row.active ==> d'.events == d.events + 1)
            && (reply.command == OtherCommand && reply.phase != PhaseFailed ==> d'.events == d.events + 1)
            && (reply.phase == Ack && reply.command != DbCreate ==> d'.events == d.events + 1)
            && (reply.command == DbCreate && d.row.status == Deleting ==> d'.events == d.events + 1)
  {
  }

  // ── The row as an object ───────────────────────────────────────────────────

  class Instance {
    var row: Row
    var events: nat

    function State(): Db
      reads this
    {
      Db(row, events)
    }

    constructor (row: Row)
      ensures State() == Db(row, 0)
    {
      this.row, events := row, 0;
    }

    method DoSetHealth(health: Health)
      modifies this
      ensures State() == SetHealth(old(State()), health)
    {
      if row.active && row.health != health {
        row := row.(health := health);
        events := events + 1;
      }
    }

    method DoTransition(to: Status, err: Option<DbError>, startedAt: Option<int>)
      modifies this
      ensures State() == Transition(old(State()), to, err, startedAt)
    {
      if !row.active {
        return;
      }
      var current := row;
      var clear := err.None? && current.lastError.Some? && (to == Running || to == Stopped);
      var changed := err.Some? && current.lastError != err;
      if current.status == to && !clear && !changed && startedAt.None? {
        return;
      }
      row := row.(status := to);
      if clear {
        row := row.(lastError := None);
      } else if err.Some? {
        row := row.(lastError := err);
      }
      if startedAt.Some? {
        row := row.(startedAt := startedAt);
      }
      if to != Running && to != Degraded && current.health != HealthNone {
        DoSetHealth(HealthNone);
      }
      events := events + 1;
    }

    method DoFinalizeDeletion(volumeRemoved: bool, writeOk: bool) returns (taken: bool)
      modifies this
      ensures (State(), taken) == FinalizeDeletion(old(State()), volumeRemoved, writeOk)
    {
      if !row.active || row.status != Deleting {
        return false;
      }
      if !volumeRemoved {
        DoTransition(Error, Some(DbError(RemoveFailed, VolumeUnconfirmed)), None);
      } else if !writeOk {
        DoTransition(Error, Some(DbError(RemoveFailed, NotRetired)), None);
      } else {
        row := row.(active := false);
        events := events + 1;
      }
      taken := true;
    }

    method DoHandleStatus(reply: Reply, now: int, writeOk: bool)
      modifies this
      ensures State() == HandleStatus(old(State()), reply, now, writeOk)
    {
      if reply.command == DbCreate && row.active && row.status == Deleting {
        events := events + 1;
        return;
      }
      match reply.phase
      case Ack =>
        if reply.command == DbCreate {
          DoTransition(Provisioning, None, None);
        } else {
          events := events + 1;
        }
      case Completed =>
        if reply.command == DbRemove {
          var taken := DoFinalizeDeletion(reply.volumeRemoved, writeOk);
          if taken {
            return;
          }
        }
        var next := ActionOutcome(reply.command);
        if next.None? {
          events := events + 1;
        } else {
          DoTransition(next.value, None, if next.value == Running then Some(now) else None);
        }
      case PhaseFailed =>
        if reply.command == DbRemove && reply.absent && !(row.active && row.status == Deleting) {
          DoTransition(Stopped, None, None);
        } else {
          DoTransition(Error, Some(DbError(FailureCode(reply.command), FromWorker(reply.message))), None);
        }
    }

    method DoReconcile(seen: Row, report: Option<Obs>, now: int)
      modifies this
      ensures State() == Reconcile(old(State()), seen, report, now)
    {
      if report.None? {
        DoSetHealth(HealthNone);
        if Transitional(seen.status) || seen.status == Error || seen.status == Stopped {
          return;
        }
        DoTransition(Error, Some(DbError(ContainerMissing, NotPresent)), None);
        return;
      }
      var o := report.value;
      if o.volumeSize > 0 && seen.volumeSize != Some(o.volumeSize) {
        row := row.(volumeSize := Some(o.volumeSize));
      }
      if RestartLooping(o) {
        DoTransition(Degraded, Some(LoopError(o)), None);
        return;
      }
      if o.state == ObsRunning {
        if CreateFailedRow(seen) {
          return;
        }
        if seen.status != Running {
          DoTransition(Running, None, if seen.startedAt.None? then Some(now) else None);
        }
      } else if o.state == ObsExited || o.state == ObsCreated || o.state == ObsDead {
        if seen.status == Deleting {
          return;
        }
        if seen.status != Stopped && seen.status != Error {
          DoTransition(Stopped, None, None);
        }
      }
      if o.state != ObsRunning && o.state != ObsPaused {
        DoSetHealth(HealthNone);
        return;
      }
      if o.health.Some? {
        DoSetHealth(o.health.value);
      }
    }
  }
}
