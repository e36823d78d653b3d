/** Staged deletion over whole histories of one instance: worker replies, syncs
    and watchdog passes working from listings of any age, snapshot results and
    operator requests, each handler one atomic step (database_handlers.go,
    database_lifecycle.go, database_reconciler.go, ws_dispatch.go). */
module Deletion {
  import opened Base
  import opened DatabaseLifecycle

  // What was done to the outside, and asked for.
  datatype Tally = Tally(
    commands: nat,                 // db_remove commands sent with remove_volume
    finalCommands: nat,            // those sent after a final snapshot
    flags: nat,                    // times pending_final_snapshot was set
    direct: nat,                   // direct delete commands sent
    forced: nat,                   // rows retired by an operator's force
    finalSnapshot: Option<int>)    // the snapshot the pending delete asked for

  // `inFlight` are the snapshots whose end the worker may still report.
  datatype World = World(d: Db, tally: Tally, inFlight: set<int>)

  datatype Event =
    | WorkerReply(reply: Reply, writeOk: bool)
    | WorkerSync(seen: Row, report: Option<Obs>)
    | Watchdog(listed: Status, connected: bool)
    | HealthReport(health: Health)
    | Freshness(stale: bool, last: Option<int>)
    | SnapshotStarted(snapshot: int)
    | SnapshotCompleted(snapshot: int, clearOk: bool, connected: bool, sendOk: bool)
    | SnapshotFailed(snapshot: int)
    | DeleteNow(protected: bool, connected: bool, force: bool, sendOk: bool, retireOk: bool)
    | DeleteWithFinal(protected: bool, ready: bool, snapshot: int)

  // failStuckInstances for one listed row.
  function ApplyWatchdog(d: Db, listed: Status, connected: bool): Db {
    var err := if listed == Deleting then DbError(RemoveFailed, DeleteStuck(connected))
               else DbError(if connected then ProvisionTimeout else WorkerOffline, StuckIn(listed));
    Transition(d, Error, Some(err), None)
  }

  // finaliseDeleteAfterSnapshot takes the instance over.
  predicate Finalises(d: Db, clearOk: bool) {
    d.row.active && d.row.pendingFinalSnapshot && clearOk
  }

  predicate Destroys(d: Db, e: Event) {
    e.SnapshotCompleted? && Finalises(d, e.clearOk) && e.connected && e.sendOk
  }

  // The database part of a completed snapshot's message.
  function ApplySnapshotCompleted(w: World, e: Event): World
    requires e.SnapshotCompleted?
  {
    var d := ClearWarning(w.d, BackupStale);
    if !Finalises(d, e.clearOk) then w.(d := d)
    else
      var taken := d.(row := d.row.(pendingFinalSnapshot := false));
      if !e.connected then w.(d := SetWarning(taken, DbError(RemoveFailed, Disconnected)))
      else if !e.sendOk then w.(d := taken)
      else w.(d := BeginDeleting(taken),
              tally := w.tally.(commands := w.tally.commands + 1, finalCommands := w.tally.finalCommands + 1))
  }

  // HandleDeleteDatabaseInstance without final_snapshot.
  function ApplyDeleteNow(w: World, e: Event): World
    requires e.DeleteNow?
  {
    if !w.d.row.active || e.protected then w
    else if !e.connected then
      if !e.force then w
      else if !e.retireOk then w.(d := Recorded(w.d))
      else w.(d := Db(w.d.row.(active := false), w.d.events + 1), tally := w.tally.(forced := w.tally.forced + 1))
    else if !e.sendOk then w
    else w.(d := BeginDeleting(Recorded(w.d)),
            tally := w.tally.(commands := w.tally.commands + 1, direct := w.tally.direct + 1))
  }

  // beginDeleteWithFinalSnapshot: `ready` covers the destination, the connection
  // and a started snapshot.
  function ApplyDeleteWithFinal(w: World, e: Event): World
    requires e.DeleteWithFinal?
  {
    if !w.d.row.active || e.protected || !e.ready || w.d.row.status != Running then w
    else World(Db(w.d.row.(pendingFinalSnapshot := true), w.d.events + 1),
               w.tally.(flags := w.tally.flags + 1, finalSnapshot := Some(e.snapshot)), w.inFlight + {e.snapshot})
  }

  function Handle(w: World, e: Event, now: int): World {
    match e
    case WorkerReply(reply, writeOk) => w.(d := HandleStatus(w.d, reply, now, writeOk))
    case WorkerSync(seen, report) => w.(d := Reconcile(w.d, seen, report, now))
    case Watchdog(listed, connected) => w.(d := ApplyWatchdog(w.d, listed, connected))
    case HealthReport(health) => w.(d := SetHealth(w.d, health))
    case Freshness(stale, last) =>
      w.(d := if stale then SetWarning(w.d, DbError(BackupStale, NoBackupSince(last)))
              else ClearWarning(w.d, BackupStale))
    case SnapshotStarted(snapshot) => w.(inFlight := w.inFlight + {snapshot})
    case SnapshotCompleted(snapshot, _, _, _) => ApplySnapshotCompleted(w, e).(inFlight := w.inFlight - {snapshot})
    case SnapshotFailed(snapshot) => w.(d := Recorded(w.d), inFlight := w.inFlight - {snapshot})
    case DeleteNow(_, _, _, _, _) => ApplyDeleteNow(w, e)
    case DeleteWithFinal(_, _, _) => ApplyDeleteWithFinal(w, e)
  }

  // Ends are reported of snapshots in flight only; a new snapshot is none of them.
  predicate Enabled(w: World, e: Event) {
    match e
    case SnapshotStarted(snapshot) => snapshot !in w.inFlight
    case SnapshotCompleted(snapshot, _, _, _) => snapshot in w.inFlight
    case SnapshotFailed(snapshot) => snapshot in w.inFlight
    case DeleteWithFinal(_, _, snapshot) => snapshot !in w.inFlight
    case _ => true
  }

  // ── One step ───────────────────────────────────────────────────────────────

  // A db_remove completion that confirms the volume and is recorded.
  predicate ConfirmsRemoval(e: Event) {
    e.WorkerReply? && e.reply.command == DbRemove && e.reply.phase == Completed && e.reply.volumeRemoved && e.writeOk
  }

  predicate Forces(w: World, e: Event) {
    e.DeleteNow? && !e.protected && !e.connected && e.force && e.retireOk
  }

  /** A row is retired exactly by a confirmed db_remove completion that finds it
      `deleting`, or by an operator's force. */
  lemma RetiredExactlyBy(w: World, e: Event, now: int)
    requires w.d.row.active
    ensures !Handle(w, e, now).d.row.active <==> (ConfirmsRemoval(e) && w.d.row.status == Deleting) || Forces(w, e)
  {
  }

  /** A retired row stays as it is: no handler revives it or moves its status. */
  lemma RetiredIsFinal(w: World, e: Event, now: int)
    requires !w.d.row.active
    ensures var r := Handle(w, e, now).d.row;
            r == w.d.row.(volumeSize := r.volumeSize) && Handle(w, e, now).tally == w.tally
  {
  }

  /** The volume-removing command of the final-snapshot path is sent exactly when
      a completed snapshot is processed with the flag up, its clearing recorded
      and the worker reachable; a failed snapshot sends nothing. The flag comes
      down with it. */
  lemma FinalCommandExactlyBy(w: World, e: Event, now: int)
    ensures Handle(w, e, now).tally.finalCommands == w.tally.finalCommands + if Destroys(w.d, e) then 1 else 0
    ensures Destroys(w.d, e) ==>
              Handle(w, e, now).d.row.status == Deleting && !Handle(w, e, now).d.row.pendingFinalSnapshot
    ensures e.SnapshotFailed? ==> Handle(w, e, now).tally == w.tally && Handle(w, e, now).d.row == w.d.row
  {
  }

  /** The removing command of a direct delete is sent exactly to a reachable worker
      for an active database without deletion protection; force counts only where
      the worker is out of reach. */
  lemma DirectCommandExactlyBy(w: World, e: Event, now: int)
    ensures var w' := Handle(w, e, now);
            var sent := e.DeleteNow? && w.d.row.active && !e.protected && e.connected && e.sendOk;
            && w'.tally.direct == w.tally.direct + (if sent then 1 else 0)
            && (sent ==> w'.d.row.status == Deleting)
            && w'.tally.forced == w.tally.forced + (if w.d.row.active && Forces(w, e) then 1 else 0)
            && (sent || (w.d.row.active && Forces(w, e)) ==> w'.d.events > w.d.events)
            && (e.DeleteNow? && e.protected ==> w' == w)
            && (e.DeleteWithFinal? && e.protected ==> w' == w)
  {
  }

  /** The flag of a staged delete is raised exactly for an active, running database
      without protection that has somewhere to back up to and a worker. */
  lemma FlagRaisedExactlyBy(w: World, e: Event, now: int)
    ensures var w' := Handle(w, e, now);
            var raised := e.DeleteWithFinal? && w.d.row.active && !e.protected && e.ready && w.d.row.status == Running;
            && w'.tally.flags == w.tally.flags + (if raised then 1 else 0)
            && (raised ==> w'.d.row == w.d.row.(pendingFinalSnapshot := true) && w'.d.events == w.d.events + 1)
  {
  }

  /** A final snapshot that completes with the worker gone destroys nothing: the
      flag is down, the status stays, and a row without an error carries the
      warning that the removal failed. */
  lemma UnreachableKeepsDatabase(w: World, e: Event, now: int)
    requires e.SnapshotCompleted? && w.d.row.active && w.d.row.pendingFinalSnapshot && e.clearOk && !e.connected
    ensures var w' := Handle(w, e, now);
            && w'.tally == w.tally && w'.d.row.active && w'.d.row.status == w.d.row.status
            && !w'.d.row.pendingFinalSnapshot
            && (w.d.row.lastError.None? || HasCode(w.d.row, BackupStale) ==>
                  w'.d.row.lastError == Some(DbError(RemoveFailed, Disconnected)))
  {
  }

  /** A snapshot's end is due once. A completed one also takes back the warning of
      stale backups; a failed one leaves an event and nothing else. */
  lemma EndIsTaken(w: World, e: Event, now: int)
    ensures e.SnapshotCompleted? ==>
              && Handle(w, e, now).inFlight == w.inFlight - {e.snapshot}
              && (w.d.row.active ==> !HasCode(Handle(w, e, now).d.row, BackupStale))
    ensures e.SnapshotFailed? ==>
              Handle(w, e, now) == World(Db(w.d.row, w.d.events + 1), w.tally, w.inFlight - {e.snapshot})
  {
  }

  /** What reaches an active row: a sync by its report, the watchdog's error, a
      health, a freshness warning raised or taken back; and a forced delete that
      could not be recorded leaves only its event. */
  lemma OthersReachRow(w: World, e: Event, now: int)
    requires w.d.row.active
    ensures var w' := Handle(w, e, now);
            && (e.WorkerSync? && e.seen == w.d.row ==> w'.d == Sync(w.d, e.report, now))
            && (e.Watchdog? ==> w'.d.row.status == Error)
            && (e.HealthReport? ==> w'.d.row.health == e.health && w'.d.row.status == w.d.row.status)
            && (e.Freshness? && e.stale && w.d.row.lastError.None? ==> HasCode(w'.d.row, BackupStale))
            && (e.Freshness? && !e.stale ==> !HasCode(w'.d.row, BackupStale))
            && (e.DeleteNow? && !e.protected && !e.connected && e.force && !e.retireOk ==>
                  w'.d == Db(w.d.row, w.d.events + 1))
  {
  }

  /** The way through: an unprotected database with its worker reachable is gone
      after a delete and the worker's confirmation, and one that asked for a final
      snapshot after the request, that snapshot's completion and the confirmation. */
  lemma DeleteGoesThrough(w: World, snapshot: int, now: int)
    requires w.d.row.active && w.d.row.status == Running && snapshot !in w.inFlight
    ensures var confirm := WorkerReply(Reply(DbRemove, Completed, "", false, true), true);
            var direct := Handle(w, DeleteNow(false, true, false, true, true), now);
            var asked := Handle(w, DeleteWithFinal(false, true, snapshot), now);
            var taken := Handle(asked, SnapshotCompleted(snapshot, true, true, true), now);
            && Enabled(w, DeleteNow(false, true, false, true, true)) && Enabled(direct, confirm)
            && !Handle(direct, confirm, now).d.row.active
            && Enabled(w, DeleteWithFinal(false, true, snapshot))
            && Enabled(asked, SnapshotCompleted(snapshot, true, true, true)) && Enabled(taken, confirm)
            && !Handle(taken, confirm, now).d.row.active
  {
  }

  /** The watchdog ends every stuck active row in `error`: a delete as a failed
      removal, anything else as a timeout or, without its worker, as offline. */
  lemma WatchdogDecides(d: Db, listed: Status, connected: bool)
    requires d.row.active
    ensures var r := ApplyWatchdog(d, listed, connected).row;
            && r.status == Error && r.active && (d.row.status != Error ==> r.health == HealthNone)
            && HasCode(r,
                       if listed == Deleting then RemoveFailed else if connected then ProvisionTimeout
                       else WorkerOffline)
  {
  }

  // ── Whole histories ────────────────────────────────────────────────────────

  function FlagUp(w: World): nat {
    if w.d.row.active && w.d.row.pendingFinalSnapshot then 1 else 0
  }

  ghost predicate Inv(w: World) {
    && w.tally.commands == w.tally.finalCommands + w.tally.direct
    // at most one final command per flag
    && w.tally.finalCommands + FlagUp(w) <= w.tally.flags
    // `deleting`, and retirement without force, follow a command
    && (w.d.row.active && w.d.row.status == Deleting ==> w.tally.commands >= 1)
    && (!w.d.row.active && w.tally.forced == 0 ==> w.tally.commands >= 1)
  }

  // Which handlers can lead into `deleting`: not a reply, not a sync, not the
  // watchdog, health or freshness.
  lemma RepliesDoNotDelete(d: Db, reply: Reply, now: int, writeOk: bool)
    requires d.row.status != Deleting
    ensures HandleStatus(d, reply, now, writeOk).row.status != Deleting
  {
  }

  lemma SyncsDoNotDelete(d: Db, seen: Row, report: Option<Obs>, now: int)
    requires d.row.status != Deleting
    ensures Reconcile(d, seen, report, now).row.status != Deleting
  {
  }

  lemma WarningsDoNotDelete(d: Db)
    requires d.row.status != Deleting
    ensures forall health :: SetHealth(d, health).row.status != Deleting
    ensures forall warning :: SetWarning(d, warning).row.status != Deleting
    ensures forall code :: ClearWarning(d, code).row.status != Deleting
    ensures forall listed, connected :: ApplyWatchdog(d, listed, connected).row.status != Deleting
  {
  }

  lemma DeletingFollowsCommand(w: World, e: Event, now: int)
    requires w.d.row.active && Handle(w, e, now).d.row.status == Deleting && w.d.row.status != Deleting
    ensures Handle(w, e, now).tally.commands == w.tally.commands + 1
  {
    hide HandleStatus, Reconcile, ApplyWatchdog;
    WarningsDoNotDelete(w.d);
    match e
    case WorkerReply(reply, writeOk) => RepliesDoNotDelete(w.d, reply, now, writeOk);
    case WorkerSync(seen, report) => SyncsDoNotDelete(w.d, seen, report, now);
    case _ =>
  }

  lemma CountersKept(w: World, e: Event, now: int)
    requires Inv(w)
    ensures var w' := Handle(w, e, now);
            && w'.tally.commands == w'.tally.finalCommands + w'.tally.direct
            && w.tally.commands <= w'.tally.commands && w.tally.forced <= w'.tally.forced
            && w'.tally.finalCommands + FlagUp(w') <= w'.tally.flags
  {
  }

  lemma StepKeepsInv(w: World, e: Event, now: int)
    requires Inv(w)
    ensures Inv(Handle(w, e, now))
  {
    hide Handle;
    CountersKept(w, e, now);
    if w.d.row.active {
      RetiredExactlyBy(w, e, now);
      if Forces(w, e) {
        ForceIsCounted(w, e, now);
      }
      if Handle(w, e, now).d.row.status == Deleting && w.d.row.status != Deleting {
        DeletingFollowsCommand(w, e, now);
      }
    } else {
      RetiredIsFinal(w, e, now);
    }
  }

  lemma ForceIsCounted(w: World, e: Event, now: int)
    requires w.d.row.active && Forces(w, e)
    ensures Handle(w, e, now).tally.forced == w.tally.forced + 1
  {
  }

  ghost predicate History(ws: seq<World>, es: seq<Event>, nows: seq<int>) {
    && |ws| == |es| + 1 && |nows| == |es| && ws[0].d.row.active && ws[0].d.row.status != Deleting
    && !ws[0].d.row.pendingFinalSnapshot && ws[0].tally == Tally(0, 0, 0, 0, 0, None)
    && forall i :: 0 <= i < |es| ==> Enabled(ws[i], es[i]) && ws[i + 1] == Handle(ws[i], es[i], nows[i])
  }

  lemma {:induction false} InvHolds(ws: seq<World>, es: seq<Event>, nows: seq<int>, n: nat)
    requires History(ws, es, nows) && n < |ws|
    ensures Inv(ws[n])
  {
    if n > 0 {
      InvHolds(ws, es, nows, n - 1);
      StepKeepsInv(ws[n - 1], es[n - 1], nows[n - 1]);
    }
  }

  lemma {:induction false} RetiredAt(ws: seq<World>, es: seq<Event>, nows: seq<int>, n: nat) returns (j: nat)
    requires History(ws, es, nows) && n < |ws| && !ws[n].d.row.active
    ensures j < n && ws[j].d.row.active && !ws[j + 1].d.row.active
  {
    if ws[n - 1].d.row.active {
      j := n - 1;
    } else {
      j := RetiredAt(ws, es, nows, n - 1);
    }
  }

  lemma {:induction false} FinalCommandAt(ws: seq<World>, es: seq<Event>, nows: seq<int>, n: nat) returns (i: nat)
    requires History(ws, es, nows) && n < |ws| && ws[n].tally.finalCommands >= 1
    ensures i < n && Destroys(ws[i].d, es[i])
  {
    FinalCommandExactlyBy(ws[n - 1], es[n - 1], nows[n - 1]);
    if ws[n - 1].tally.finalCommands >= 1 {
      i := FinalCommandAt(ws, es, nows, n - 1);
    } else {
      i := n - 1;
    }
  }

  lemma {:induction false} NoDirectCounted(ws: seq<World>, es: seq<Event>, nows: seq<int>, n: nat)
    requires History(ws, es, nows) && n < |ws| && forall i :: 0 <= i < |es| ==> !es[i].DeleteNow?
    ensures ws[n].tally.direct == 0 && ws[n].tally.forced == 0
  {
    if n > 0 {
      NoDirectCounted(ws, es, nows, n - 1);
      OnlyDeleteNowCounts(ws[n - 1], es[n - 1], nows[n - 1]);
    }
  }

  lemma OnlyDeleteNowCounts(w: World, e: Event, now: int)
    requires !e.DeleteNow?
    ensures Handle(w, e, now).tally.direct == w.tally.direct && Handle(w, e, now).tally.forced == w.tally.forced
  {
  }

  /** Without an operator's force a retired row had its volume's removal first
      commanded and then confirmed while the row was `deleting`. */
  lemma RetiredWasConfirmed(ws: seq<World>, es: seq<Event>, nows: seq<int>, n: nat) returns (j: nat)
    requires History(ws, es, nows) && n < |ws| && !ws[n].d.row.active
    requires forall i :: 0 <= i < |es| ==> !Forces(ws[i], es[i])
    ensures j < n && ConfirmsRemoval(es[j]) && ws[j].d.row.status == Deleting && ws[j].tally.commands >= 1
  {
    j := RetiredAt(ws, es, nows, n);
    InvHolds(ws, es, nows, j);
    RetiredExactlyBy(ws[j], es[j], nows[j]);
  }

  /** If every delete asked for a final snapshot, a database is gone only after a
      completed snapshot was processed with the delete pending, and after that a
      confirmed removal: never on a failed snapshot, whatever else arrives. */
  lemma FinalSnapshotCameFirst(ws: seq<World>, es: seq<Event>, nows: seq<int>, n: nat) returns (i: nat, j: nat)
    requires History(ws, es, nows) && n < |ws| && !ws[n].d.row.active
    requires forall k :: 0 <= k < |es| ==> !es[k].DeleteNow?
    ensures i < j < n && Destroys(ws[i].d, es[i]) && ConfirmsRemoval(es[j]) && ws[j].d.row.status == Deleting
  {
    j := RetiredAt(ws, es, nows, n);
    RetiredExactlyBy(ws[j], es[j], nows[j]);
    InvHolds(ws, es, nows, j);
    NoDirectCounted(ws, es, nows, j);
    i := FinalCommandAt(ws, es, nows, j);
  }

  /** The final-snapshot path sends at most one command per flag raised. */
  lemma OneCommandPerFlag(ws: seq<World>, es: seq<Event>, nows: seq<int>, n: nat)
    requires History(ws, es, nows) && n < |ws|
    ensures ws[n].tally.finalCommands <= ws[n].tally.flags
    ensures ws[n].d.row.active && ws[n].d.row.pendingFinalSnapshot ==> ws[n].tally.finalCommands < ws[n].tally.flags
  {
    InvHolds(ws, es, nows, n);
  }

  // ── Whose completion destroys ──────────────────────────────────────────────

  // The request that raises the flag, for a snapshot of its own.
  predicate Raises(w: World, e: Event) {
    e.DeleteWithFinal? && w.d.row.active && !e.protected && e.ready && w.d.row.status == Running
  }

  // A completion that takes the flag down, whichever snapshot it is of.
  predicate Clears(w: World, e: Event) {
    e.SnapshotCompleted? && w.d.row.active && e.clearOk
  }

  // ... and finds the worker reachable.
  predicate Sends(w: World, e: Event) {
    Clears(w, e) && e.connected && e.sendOk
  }

  lemma FlagMoves(w: World, e: Event, now: int)
    ensures Raises(w, e) ==>
              Handle(w, e, now).d.row.pendingFinalSnapshot && Handle(w, e, now).tally.finalSnapshot == Some(e.snapshot)
    ensures !Raises(w, e) ==> Handle(w, e, now).tally.finalSnapshot == w.tally.finalSnapshot
    ensures !Raises(w, e) && Handle(w, e, now).d.row.active ==>
              (Handle(w, e, now).d.row.pendingFinalSnapshot <==> w.d.row.pendingFinalSnapshot && !Clears(w, e))
  {
    hide Transition, SetHealth, FinalizeDeletion;
    FlagUntouched();
    match e
    case WorkerReply(reply, writeOk) => RepliesLeaveFlag(w.d, reply, now, writeOk);
    case WorkerSync(seen, report) => SyncsLeaveFlag(w.d, seen, report, now);
    case _ =>
  }

  lemma FlagUntouched()
    ensures forall d, to, err, at :: Transition(d, to, err, at).row.pendingFinalSnapshot == d.row.pendingFinalSnapshot
    ensures forall d, to, err, at :: Transition(d, to, err, at).row.active == d.row.active
    ensures forall d, health :: SetHealth(d, health).row.pendingFinalSnapshot == d.row.pendingFinalSnapshot
  {
  }

  lemma RepliesLeaveFlag(d: Db, reply: Reply, now: int, writeOk: bool)
    ensures HandleStatus(d, reply, now, writeOk).row.pendingFinalSnapshot == d.row.pendingFinalSnapshot
  {
  }

  lemma SyncsLeaveFlag(d: Db, seen: Row, report: Option<Obs>, now: int)
    ensures Reconcile(d, seen, report, now).row.pendingFinalSnapshot == d.row.pendingFinalSnapshot
  {
  }

  lemma ActiveBefore(ws: seq<World>, es: seq<Event>, nows: seq<int>, n: nat)
    requires History(ws, es, nows) && n < |es| && ws[n + 1].d.row.active
    ensures ws[n].d.row.active
  {
    if !ws[n].d.row.active {
      RetiredIsFinal(ws[n], es[n], nows[n]);
    }
  }

  // Nothing after event k raises the flag again before event n.
  ghost predicate OnlyRaise(ws: seq<World>, es: seq<Event>, k: nat, n: nat)
    requires |ws| == |es| + 1
  {
    k < n <= |es| && Raises(ws[k], es[k]) && forall m :: k < m < n ==> !Raises(ws[m], es[m])
  }

  // No completion between k and n took the flag down.
  ghost predicate NoneCleared(ws: seq<World>, es: seq<Event>, k: nat, n: nat)
    requires |ws| == |es| + 1 && n <= |es|
  {
    forall m :: k < m < n ==> !Clears(ws[m], es[m])
  }

  // The flag is up exactly until the first completion that is recorded.
  lemma {:induction false} FlagUpIff(ws: seq<World>, es: seq<Event>, nows: seq<int>, k: nat, n: nat)
    requires History(ws, es, nows) && OnlyRaise(ws, es, k, n) && ws[n].d.row.active
    ensures ws[n].d.row.pendingFinalSnapshot <==> NoneCleared(ws, es, k, n)
    ensures ws[n].tally.finalSnapshot == Some(es[k].snapshot)
  {
    hide Handle;
    FlagMoves(ws[n - 1], es[n - 1], nows[n - 1]);
    assert ws[n] == Handle(ws[n - 1], es[n - 1], nows[n - 1]);
    if n > k + 1 {
      ActiveBefore(ws, es, nows, n - 1);
      FlagUpIff(ws, es, nows, k, n - 1);
      assert NoneCleared(ws, es, k, n) <==> NoneCleared(ws, es, k, n - 1) && !Clears(ws[n - 1], es[n - 1]);
    }
  }

  // Event i is the first recorded completion since the flag was raised at k.
  ghost predicate FirstCleared(ws: seq<World>, es: seq<Event>, k: nat, i: nat)
    requires |ws| == |es| + 1
  {
    k < i < |es| && Clears(ws[i], es[i]) && NoneCleared(ws, es, k, i)
  }

  /** After the flag was raised, an event destroys the database exactly when it is
      the first completion recorded since, of whichever snapshot, and finds the
      worker reachable. */
  lemma DestroysIffFirst(ws: seq<World>, es: seq<Event>, nows: seq<int>, k: nat, i: nat)
    requires History(ws, es, nows) && i < |es| && OnlyRaise(ws, es, k, i)
    ensures Destroys(ws[i].d, es[i]) <==> FirstCleared(ws, es, k, i) && Sends(ws[i], es[i])
  {
    hide Handle;
    if ws[i].d.row.active {
      FlagUpIff(ws, es, nows, k, i);
    }
  }

  lemma {:induction false} LastRaise(ws: seq<World>, es: seq<Event>, nows: seq<int>, n: nat) returns (k: nat)
    requires History(ws, es, nows) && n <= |es| && ws[n].d.row.active && ws[n].d.row.pendingFinalSnapshot
    ensures OnlyRaise(ws, es, k, n)
  {
    hide Handle;
    assert ws[n] == Handle(ws[n - 1], es[n - 1], nows[n - 1]);
    ActiveBefore(ws, es, nows, n - 1);
    FlagMoves(ws[n - 1], es[n - 1], nows[n - 1]);
    if Raises(ws[n - 1], es[n - 1]) {
      k := n - 1;
    } else {
      k := LastRaise(ws, es, nows, n - 1);
    }
  }

  /** A database destroyed on the final-snapshot path was asked for, at some k, and
      is destroyed by the first completion recorded since, of whichever snapshot. */
  lemma DestroyedByFirst(ws: seq<World>, es: seq<Event>, nows: seq<int>, i: nat) returns (k: nat)
    requires History(ws, es, nows) && i < |es| && Destroys(ws[i].d, es[i])
    ensures OnlyRaise(ws, es, k, i) && FirstCleared(ws, es, k, i) && ws[i].tally.finalSnapshot == Some(es[k].snapshot)
  {
    hide Handle;
    k := LastRaise(ws, es, nows, i);
    FlagUpIff(ws, es, nows, k, i);
    DestroysIffFirst(ws, es, nows, k, i);
  }

  // ── Waiting for its own snapshot ───────────────────────────────────────────

  // What may follow while no other snapshot starts and no other delete is asked for.
  ghost predicate Continues(ws: seq<World>, es: seq<Event>, nows: seq<int>, w: World) {
    && |ws| == |es| + 1 && |nows| == |es| && ws[0] == w
    && forall i :: 0 <= i < |es| ==>
         Enabled(ws[i], es[i]) && StartsNothing(ws[i], es[i]) && ws[i + 1] == Handle(ws[i], es[i], nows[i])
  }

  predicate StartsNothing(w: World, e: Event) {
    !e.SnapshotStarted? && !Raises(w, e)
  }

  // Whatever follows, only this snapshot's completion destroys the database.
  ghost predicate WaitsForOwn(w: World, own: int) {
    forall ws: seq<World>, es: seq<Event>, nows, i ::
      Continues(ws, es, nows, w) && 0 <= i < |es| && Destroys(ws[i].d, es[i]) ==> es[i].snapshot == own
  }

  lemma InFlightShrinks(w: World, e: Event, now: int)
    requires StartsNothing(w, e)
    ensures Handle(w, e, now).inFlight <= w.inFlight
  {
    hide HandleStatus, Reconcile, Transition, SetHealth, SetWarning, ClearWarning;
  }

  lemma {:induction false} InFlightStays(ws: seq<World>, es: seq<Event>, nows: seq<int>, w: World, n: nat)
    requires Continues(ws, es, nows, w) && n < |ws|
    ensures ws[n].inFlight <= w.inFlight
  {
    hide Handle;
    if n > 0 {
      InFlightStays(ws, es, nows, w, n - 1);
      InFlightShrinks(ws[n - 1], es[n - 1], nows[n - 1]);
    }
  }

  // Another snapshot in flight may be the first to complete.
  lemma OtherMayComplete(w: World, own: int, other: int, now: int)
    requires w.d.row.active && w.d.row.pendingFinalSnapshot && other in w.inFlight && other != own
    ensures !WaitsForOwn(w, own)
  {
    var e := SnapshotCompleted(other, true, true, true);
    var ws, es, nows := [w, Handle(w, e, now)], [e], [now];
    assert Continues(ws, es, nows, w);
    assert Destroys(ws[0].d, es[0]) && es[0].snapshot != own;
  }

  /** A condition to check at the request: a delete with a final snapshot waits for
      that snapshot, in every continuation that starts no other, exactly when no
      snapshot of the instance is in flight when it is asked for. */
  lemma WaitsForOwnIff(w: World, e: Event, now: int)
    requires Raises(w, e) && Enabled(w, e)
    ensures WaitsForOwn(Handle(w, e, now), e.snapshot) <==> w.inFlight == {}
  {
    var w' := Handle(w, e, now);
    assert w'.inFlight == w.inFlight + {e.snapshot} && w'.d.row.active && w'.d.row.pendingFinalSnapshot;
    hide Handle;
    if w.inFlight == {} {
      forall ws: seq<World>, es: seq<Event>, nows, i |
        Continues(ws, es, nows, w') && 0 <= i < |es| && Destroys(ws[i].d, es[i])
        ensures es[i].snapshot == e.snapshot
      {
        InFlightStays(ws, es, nows, w', i);
        assert Enabled(ws[i], es[i]);
      }
    } else {
      var other := AnyOf(w.inFlight);
      OtherMayComplete(w', e.snapshot, other, now);
    }
  }

  /** Nor does it keep others from starting: asked for with snapshot `wanted` and
      nothing in flight, a database is destroyed by the completion of a snapshot
      started afterwards, such as a scheduled one. */
  lemma OtherSnapshotDestroys(row: Row, wanted: int, other: int, now: int) returns (ws: seq<World>, es: seq<Event>)
    requires row.active && row.status == Running && !row.pendingFinalSnapshot && wanted != other
    ensures |es| == 3 && History(ws, es, [now, now, now]) && ws[0].inFlight == {}
    ensures Raises(ws[0], es[0]) && es[0].snapshot == wanted
    ensures es[2] == SnapshotCompleted(other, true, true, true) && Destroys(ws[2].d, es[2])
    ensures ws[2].tally.finalSnapshot == Some(wanted) && ws[3].d.row.status == Deleting && ws[3].tally.commands == 1
  {
    var w0 := World(Db(row, 0), Tally(0, 0, 0, 0, 0, None), {});
    es := [DeleteWithFinal(false, true, wanted), SnapshotStarted(other), SnapshotCompleted(other, true, true, true)];
    var w1 := Handle(w0, es[0], now);
    var w2 := Handle(w1, es[1], now);
    ws := [w0, w1, w2, Handle(w2, es[2], now)];
  }
}
